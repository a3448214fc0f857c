# Verified model of the custom-robot service and the curriculum trainer

This project models the parts of the repository whose correctness depends on more than one
function, and proves what they promise. `dafny verify dfyconfig.toml` checks everything.

* **Reservation and orchestration** (`Preparations`, `TrainingJobs`, `Stores`,
  `Orchestration*`, `Service`, `Readiness`). The SQLite tables, the statements of the store classes,
  and the SaaS process as a state machine: request handlers, one worker per attempt or job, the
  `_active` set, start-up reconciliation, and a crash between any two writes. Every transaction is
  one step. `OrchestrationRuns` holds the guarantees over every run; they rest on each live record
  having one writer, which `OrchestrationProof` shows every step keeps. `OrchestrationCauses` gives every stored state
  the event behind it. `OrchestrationPaths` shows what the process can reach and that nothing else
  changes on the way. `Service` runs both request
  handlers, start-up and the end of a worker on the store classes, with the other threads doing
  anything the state machine lets them between two statements.
* **Step requests** (`StepQuantum`). The loop of `bounded_mjx_phase_steps`: when it ends, what it
  returns, and what Brax then executes.
* **The G1 curriculum** (`CheckpointSelection`, `CurriculumChecks`, `Curriculum`, `CurriculumHistory`). Both
  phases as an imperative run over write-once records, dead at any effect, the recovery that finalizes
  from those records, and any sequence of runs and recoveries over one object store.
* **Acceptance gates** (`LocomotionGate`). The binomial tail over exact reals and the bisection on it.
* **Streams and windows** (`SlidingWindow`, `Progress`, `EvaluationSeeds`). The pruning rate
  limiters against full history, the progress callback, the evaluation seeds.
* **Producer and consumer** (`CanonicalJson`, `SetupCatalog`, `InputContract`, `InputDocuments`). A setup
  normalized by the SaaS catalog, encoded, and validated by the separately maintained worker contract.

Classes stand where the source updates objects in place; the methods are proved against the
functions the lemmas are about. Clock readings, provider answers, trainers, evaluators, hashes and
the JSON codec are parameters; the laws assumed of the codec and the hash are `CanonicalJson.Lawful`.

## What turned out false, or true only on a condition

* `bounded_mjx_phase_steps` does not always return. Five steps with checkpoints every four and
  batches of one alternate between two interval counts for ever (`StepQuantum.FiveStepsNeverSettle`).
  `SettlesIffSoon` decides termination for every request; `TwoRoundsOrNever` gives the closed form when an
  epoch fits a checkpoint interval. The reviewed 200M, pilot and rough requests return at once.
* `evaluation_seeds` documents that collisions are impossible; negative base seeds pass its checks
  and can collide. `EvaluationSeeds.NeverCollideIff` is the exact condition.
* After a contract rollback the comments at saas/backend/app/store.py:206-212 and
  saas/backend/app/main.py:687-691 say the setup shows as ready. `project_setup_readiness` looks at
  the newest attempt, so it shows as not prepared although a start would pass
  (`Readiness.RollbackStaysHidden`).
* The limiters prune with each call's reading, and both read the clock before taking the lock, so a
  reading can enter late although the clock never steps back. Without lateness every verdict is the
  full-history one (`SlidingWindow.InOrderAgrees`). A reading `now` after a greater one `t` gets the
  full-history verdict in every history if and only if `limit <= 1` or `t <= now`
  (`LateCallsAgreeIff`); after a compaction at `t`, if and only if `limit <= 0` or `t <= now`
  (`LateAfterSweepAgreeIff`). `RaceExceedsLimit` is two threads that admit one call too many.
* hosted_g1_curriculum.py:281-284 calls the seeds its config owns the reserved final set; the finalizer
  evaluates on them again (finalize.py:153), so a finished run evaluates them twice and every recovery once
  more. What holds is that nothing does so before selection or on another checkpoint
  (`CurriculumHistory.ReservedSeedsAfterSelection`).
* A recovery that finds the finalization input on its own disk alone finalizes it without storing it, so
  another run may still commit to, and finalize, a different one (`CurriculumHistory.LocalInputCanBeSuperseded`).
* An exception between a reservation and the launch leaves the record unfinished with no thread to drive it
  until the process restarts (`Service.Process.PrepareRobotSetup`, `OrchestrationRuns.UnfinishedIsDriven`).
* A missing `fell` entry counts as no fall in the aggregate and as a fall in the flat gate
  (`CheckpointSelection.NoFalls`, `CurriculumChecks.NoFall`); the model keeps both.
* The docstring of `map_nebius_state` says terminal success maps to None; the code maps it to `completed`
  (saas/backend/app/orchestration.py:190 against 206), and so does the model.
* `_poll` stores a remote failure before `_fail` stores it again, so a failed job's phase may still
  change once after `failed` is first stored (`OrchestrationRuns.FinishedStaysFinished`).

## Model

| member | source | states |
|---|---|---|
| Preparations.SelectIsFirst | saas/backend/app/store.py:189-221 | A lookup returns the first matching row by creation time, then insertion order, and none only when none matches |
| Preparations.ReserveMeaning | saas/backend/app/store.py:242-292 | Which of reuse, quota refusal, duplicate id and creation each request meets, by what is in the table; which attempt is reused; and the table afterwards |
| Preparations.ReserveKeepsTable | saas/backend/app/store.py:242-292 | Reservation keeps one unfailed attempt per exact key, the tenant quota, and agreement of columns with documents |
| Preparations.PutKeepsTable | saas/backend/app/store.py:294-307 | A write by the owner of a live row stores its document and state, leaves its creation time and every other row, and keeps the table invariant |
| Preparations.AcceptedLookupUnique | saas/backend/app/store.py:201-221 | The accepted attempt of a key is the only unfailed one, so the fingerprint lookup has one answer, with its report |
| TrainingJobs.ReserveMeaning | saas/backend/app/store.py:309-365 | Which of replay, the two quotas, duplicate id and creation each request meets, by what is in the tables, and the tables afterwards |
| TrainingJobs.ReserveKeepsTables | saas/backend/app/store.py:309-365 | Reservation keeps one job per idempotency key, the active limit and the daily limit |
| TrainingJobs.InsertDaily | saas/backend/app/store.py:346-365 | A start admitted by the rolling count keeps every closed 24-hour window within the limit though the insert reads the clock later |
| TrainingJobs.PutKeepsTables | saas/backend/app/store.py:114-125 | Replacing a job row without reviving a finished job, or completing one without artifacts, keeps the tables' invariant |
| TrainingJobs.SetArtifactsKeepsTables | saas/backend/app/store.py:150-155 | Storing a manifest keeps the invariant |
| Stores.CustomTrainingStore.LatestPreparation | saas/backend/app/store.py:189-199 | None exactly when the setup has no attempt, else the one created last, of equals the one inserted last |
| Stores.CustomTrainingStore.AcceptedPreparation | saas/backend/app/store.py:201-221 | Answers exactly the matching accepted row, whose report is ready |
| Stores.CustomTrainingStore.ReservePreparation | saas/backend/app/store.py:242-292 | Which answer each request meets, by what is in the table; the invariant is kept and no other table touched |
| Stores.CustomTrainingStore.PutPreparation | saas/backend/app/store.py:294-307 | The update refines the table statement; a missing row is the KeyError |
| Stores.CustomTrainingStore.ReserveTrainingJob | saas/backend/app/store.py:309-365 | Which answer each request meets, by what is in the tables at both clock readings; the invariant is kept |
| Stores.JobStore.Put | saas/backend/app/store.py:114-125 | Every other job, all requests, manifests and attempts are unchanged; the tables stay well formed when the row is the job's own and not revived |
| Stores.JobStore.ListActive | saas/backend/app/store.py:144-148 | Exactly the jobs that are not completed or failed |
| Stores.JobStore.SetArtifacts | saas/backend/app/store.py:150-155 | Every other manifest, all jobs, requests and attempts are unchanged; the tables stay well formed |
| Stores.CustomTrainingStore.ListActivePreparations | saas/backend/app/store.py:234-240 | Exactly the attempts stored as queued or preparing, decoded |
| Service.Process.PrepareRobotSetup | saas/backend/app/main.py:593-654 | Whatever other threads do meanwhile, what the table held decides between reuse, the quota answer, the error, a refused publication and a launch; a launched attempt is stored as answered, active, held by one worker and not yet submitted |
| Service.Process.StartRobotSetupTraining | saas/backend/app/main.py:684-775 | Whatever other threads do meanwhile, a known key answers its first job and each quota its own refusal; a started job is stored, bound to its key and held by one worker; a refused snapshot leaves it failed and never submitted |
| Service.Process.Complete | saas/backend/app/orchestration.py:651-693 | The job ends completed, its manifest stored before, exactly when a manifest arrives before the attempts, the deadline or an invalid one end the wait |
| Service.Process.Resume | saas/backend/app/orchestration.py:273-306 | Start-up fails every interrupted submission; every record still unfinished then has a remote id and one thread to drive it, unless it died |
| Service.Process.ShowReadiness | saas/backend/app/custom_training.py:160-210 | A setup shown as startable passes the start gate on the tables as they are, with the attempt shown |
| OrchestrationPaths.ProviderNames | saas/backend/app/orchestration.py:187-209 | Which provider names mean starting, training, completed and failed, under any enum prefix, and two that mean none |
| OrchestrationPaths.PrefixIgnored | saas/backend/app/orchestration.py:187-209 | An enum prefix ending in an underscore never changes how a provider state is read |
| OrchestrationPaths.CaseIgnored | saas/backend/app/orchestration.py:193-209 | The case of a provider state never changes how it is read |
| OrchestrationProof.Keeps | saas/backend/app/orchestration.py:257-306 | Every step of handlers, workers, crash and resume keeps the sole-writer invariant and only moves records forward |
| OrchestrationRuns.QuotasHold | saas/backend/app/store.py:270-281 | In every reachable state no tenant has more attempts queued or preparing, custom jobs unfinished, or starts in any 24 hours, than it may |
| OrchestrationCauses.AcceptedWasReported | saas/backend/app/orchestration.py:521-562 | Over every run, an accepted attempt was accepted by a report read for its own fingerprint |
| OrchestrationCauses.FailedAttemptHasReason | saas/backend/app/orchestration.py:412-561 | Over every run, the phase a failed attempt is stored with names something that happened to it: publication, submission, a deadline, the provider, or its report |
| OrchestrationCauses.ExecutingWasSeen | saas/backend/app/orchestration.py:490-519 | Over every run, an attempt stored as executing was seen starting or running by the provider |
| OrchestrationCauses.ReportDecides | saas/backend/app/orchestration.py:521-562 | A report accepts its attempt, or fails it with its phase and open to a retry, or, being for another fingerprint, never does either |
| OrchestrationCauses.AttemptFollowsProvider | saas/backend/app/orchestration.py:490-519 | What each provider state does to the stored attempt and to its worker |
| OrchestrationCauses.JobFollowsProvider | saas/backend/app/orchestration.py:621-660 | What each provider state does to the stored job and to its worker |
| OrchestrationCauses.AnswerIsRecorded | saas/backend/app/orchestration.py:456-488 | The answer of create_job is stored with the status that follows it; an empty one counts as none |
| OrchestrationCauses.JobsAreCustom | saas/backend/app/main.py:717-734 | Every job started is one the quota on custom jobs counts |
| OrchestrationCauses.StatusWasReached | saas/backend/app/orchestration.py:580-693 | Over every run, a job's status is one that its reservation, its submission or a poll put it in |
| OrchestrationCauses.CompletedWasSeen | saas/backend/app/orchestration.py:621-693 | Over every run, a completed job was seen completed by the provider, and then its manifest arrived |
| OrchestrationCauses.FailedJobHasReason | saas/backend/app/orchestration.py:560-693 | Over every run, a failed job has a reason that happened to it, named by its phase unless a remote failure is not written up yet |
| OrchestrationCauses.AttemptRemoteWasAnswered | saas/backend/app/orchestration.py:456-477 | Over every run, a stored remote id is what create_job answered for that attempt |
| OrchestrationCauses.JobRemoteWasAnswered | saas/backend/app/orchestration.py:580-619 | Over every run, a stored remote id is what create_job answered for that job |
| OrchestrationCauses.ManifestWasRead | saas/backend/app/orchestration.py:651-693 | Over every run, a stored manifest was read for that job, by its worker or a refresh |
| OrchestrationCauses.RefreshMeans | saas/backend/app/main.py:890-1004 | When a manifest may be refreshed, and that nothing else changes |
| OrchestrationRuns.OneUnfailedAttempt | saas/backend/app/store.py:251-292 | At most one unfailed attempt per tenant, setup and fingerprint; accepted implies the report; failed is retriable |
| OrchestrationRuns.FinishedStaysFinished | saas/backend/app/orchestration.py:412-561 | accepted, failed and completed are absorbing over every run |
| OrchestrationRuns.KeyIsIdempotent | saas/backend/app/store.py:318-365 | A key names one job for ever, one answer reports creation, create_job runs at most once for it, and the store's internal errors are unreachable |
| OrchestrationRuns.SubmittedAtMostOnce | saas/backend/app/orchestration.py:580-619 | create_job runs at most once per record; a stored remote id is never replaced and follows exactly one submission |
| OrchestrationRuns.CompletedHasArtifacts | saas/backend/app/orchestration.py:651-693 | At every crash point a job stored as completed has its manifest stored, then and ever after |
| OrchestrationRuns.JobsWerePrepared | saas/backend/app/main.py:684-734 | Every job was started from an attempt accepted, with report, for its exact fingerprint |
| OrchestrationRuns.SoleWriter | saas/backend/app/orchestration.py:257-271 | No record is held by two threads, and a writer's copy is the stored document |
| OrchestrationRuns.AfterResume | saas/backend/app/orchestration.py:273-306 | When start-up ends every unfinished record has a remote id and exactly one worker, unless that worker already died |
| OrchestrationRuns.UnfinishedIsDriven | saas/backend/app/orchestration.py:257-306 | At every moment the process is up, each unfinished record is in the hands of exactly one thread, or its only writer died of an exception |
| OrchestrationPaths.AttemptCanBeAccepted | saas/backend/app/orchestration.py:456-561 | From any state a reserved attempt can be driven to acceptance in eight steps that submit once and change only its row |
| OrchestrationPaths.JobCanComplete | saas/backend/app/orchestration.py:580-693 | A setup whose gate is open can be trained to completion; the job, request and manifest are all that changes |
| OrchestrationPaths.LostSubmissionFails | saas/backend/app/orchestration.py:273-289 | A crash before the remote id is stored ends in a submission failure at start-up, never in a second submission |
| Readiness.StartableMeansGateOpen | saas/backend/app/custom_training.py:160-210 | A setup is shown startable exactly when it is eligible, the start gate would pass, and the newest attempt is the one it would use |
| Readiness.GateOpensIffAccepted | saas/backend/app/main.py:684-708 | The start gate passes exactly when some attempt for the current fingerprint is accepted |
| Readiness.RollbackStaysHidden | saas/backend/app/main.py:687-708 | After a rollback the gate is open, the setup is not shown startable, and preparing again changes neither |
| Readiness.PrepareOfferMeans | saas/backend/app/custom_training.py:160-210 | Where preparing is not offered, asking hands back the attempt shown and inserts nothing; where it is offered, a retry is answered with an old attempt exactly when one is superseded |
| Readiness.ShownAs | saas/backend/app/custom_training.py:160-210 | Level, reason and offers by the state of the newest attempt, if it is for the current fingerprint |
| Readiness.EligibilityMeans | saas/backend/app/custom_training.py:135-146 | Which setups are eligible, and the reason each other one is given |
| Readiness.EligibleIffCataloged | saas/backend/app/custom_training.py:135-146 | With the feature on, eligibility is exactly what the catalog can describe |
| StepQuantum.BoundedPhaseSteps | sim2policy/src/sim2policy/g1_curriculum.py:242-269 | Exactly when it rejects, and that a returned request is positive, within budget, a multiple of its own epoch round, and less than a round short |
| StepQuantum.SettlesIffSoon | sim2policy/src/sim2policy/g1_curriculum.py:260-269 | The loop ends exactly if it raises at once or finds a fixed count within as many rounds as first intervals |
| StepQuantum.TwoRoundsOrNever | sim2policy/src/sim2policy/g1_curriculum.py:260-269 | When an epoch fits a checkpoint interval, the loop ends within two rounds or alternates for ever, and exactly when which |
| StepQuantum.AlternatesForever | sim2policy/src/sim2policy/g1_curriculum.py:261-269 | In the alternating family every even round has k0 intervals, every odd one k0 - 1, and none is fixed |
| StepQuantum.FiveStepsNeverSettle | sim2policy/src/sim2policy/g1_curriculum.py:261-269 | A concrete request on which the loop never ends |
| StepQuantum.RaisesOnlyAtOnce | sim2policy/src/sim2policy/g1_curriculum.py:262-265 | The smaller-than-one-epoch error can only come in the first round, exactly when one epoch exceeds the budget |
| StepQuantum.ReturnedIsUnique | sim2policy/src/sim2policy/g1_curriculum.py:260-269 | A request has at most one value to return |
| StepQuantum.ExecutedExactly | sim2policy/src/sim2policy/train_mjx.py:203-205 | Brax executes a request exactly as asked if and only if it is a whole number of epoch rounds |
| StepQuantum.ExecutedOvershoots | sim2policy/src/sim2policy/g1_curriculum.py:249-257 | Otherwise the upstream round-up adds steps, less than one round of them |
| StepQuantum.ReturnedIsStable | sim2policy/src/sim2policy/g1_curriculum.py:249-269 | A returned request runs exactly as many steps as it names, and asking for it again returns it |
| StepQuantum.AssertReviewedStepContract | sim2policy/src/sim2policy/g1_curriculum.py:141-168 | The reviewed flat, rough and pilot numbers come out, and flat plus rough execute within 450M |
| StepQuantum.NominalRequestsOvershoot | sim2policy/src/sim2policy/g1_curriculum.py:251-257 | The nominal 200M and 250M requests execute the documented larger counts |
| LocomotionGate.CombIsFactorialQuotient | sim2policy/src/sim2policy/locomotion_gate.py:43 | The coefficients are n! / (k! (n - k)!) |
| LocomotionGate.TailRecurrence | sim2policy/src/sim2policy/locomotion_gate.py:28-43 | The summed tail satisfies the recurrence on the last episode |
| LocomotionGate.GateLaws | sim2policy/src/sim2policy/locomotion_gate.py:28-43 | The gate lies in [0, 1], falls in the required count and rises in the reliability |
| LocomotionGate.PerfectGate | sim2policy/src/sim2policy/locomotion_gate.py:9-12 | An all-episodes gate passes with probability p^n |
| LocomotionGate.GateAnswers | sim2policy/src/sim2policy/locomotion_gate.py:28-43 | Which requests have a probability, and the error each other one gets |
| LocomotionGate.MinimumReliabilityFor | sim2policy/src/sim2policy/locomotion_gate.py:46-57 | The result reaches the target whenever any reliability does, and none that reaches it is more than 2^-200 below |
| CheckpointSelection.SelectMeans | sim2policy/src/sim2policy/checkpoint_selection.py:205-211 | When selection accepts its candidates, and that the winner is the first one no other beats |
| CheckpointSelection.WinnerRanks | sim2policy/src/sim2policy/checkpoint_selection.py:182-211 | No candidate is better than the winner: fewest falls, then slowest episode, mean length, velocity and reward, then the earlier step; or reward first, for the other kind |
| CheckpointSelection.RankKeyMeans | sim2policy/src/sim2policy/checkpoint_selection.py:182-202 | The values reported for a candidate, measured on its episodes |
| CheckpointSelection.SumOfParts | sim2policy/src/sim2policy/checkpoint_selection.py:38-53 | What a mean adds up |
| CheckpointSelection.ScheduleAt | sim2policy/src/sim2policy/checkpoint_selection.py:105 | Every declared seed is scheduled the asked number of times, in order |
| CheckpointSelection.MeetsMeans | sim2policy/src/sim2policy/checkpoint_selection.py:241-269 | What each acceptance criterion asks of the episodes themselves |
| CheckpointSelection.TruncateMeans | sim2policy/src/sim2policy/checkpoint_selection.py:254-258 | A target count is truncated towards zero |
| CheckpointSelection.ExplanationAgrees | sim2policy/src/sim2policy/checkpoint_selection.py:214-222 | The explanation accepts exactly the candidate selection returned, ties included |
| CheckpointSelection.ExplanationMeans | sim2policy/src/sim2policy/checkpoint_selection.py:223-238 | It counts all candidates, describes the winner, and its runner-up is maximal among the rest |
| CheckpointSelection.HeadIsFirstMax | sim2policy/src/sim2policy/checkpoint_selection.py:211-220 | Any stable descending arrangement starts with what max returns |
| CheckpointSelection.EarliestStepWins | sim2policy/src/sim2policy/checkpoint_selection.py:182-202 | Between equal aggregates the earlier checkpoint wins whatever the order |
| CheckpointSelection.EvaluateCandidates | sim2policy/src/sim2policy/checkpoint_selection.py:66-128 | Which error each request meets; else one piece of evidence per checkpoint, none of it on an undeclared or a reserved seed |
| CheckpointSelection.AcceptanceFromAggregate | sim2policy/src/sim2policy/checkpoint_selection.py:241-269 | Rejects exactly unknown criteria, skips design fields, and gives each other criterion its verdict |
| CurriculumChecks.GatePassesMeans | sim2policy/src/sim2policy/g1_curriculum.py:53-99 | The flat gate passes exactly when nine episodes ran the full horizon, nine ended standing, and no full horizon was too slow; it reports both counts |
| CurriculumChecks.GateSlowest | sim2policy/src/sim2policy/g1_curriculum.py:53-99 | The velocity it reports is the slowest of the full horizons |
| CurriculumChecks.ProvenanceMeans | sim2policy/src/sim2policy/g1_curriculum.py:272-335 | Exactly which measurements the chain accepts, zero standing for a missing one; its last ceiling check can never be the one that fails |
| CurriculumChecks.BudgetMeans | sim2policy/src/sim2policy/g1_curriculum.py:113-138 | What is left of 450M steps, and the error each other measurement gets |
| CurriculumChecks.BuiltMeans | sim2policy/src/sim2policy/g1_transition.py:56-112 | Which parents may cross, what the record says of them, what is restored and what starts afresh |
| CurriculumChecks.VerifyIffBuilt | sim2policy/src/sim2policy/g1_transition.py:56-171 | Verification accepts exactly what building writes, for a rough target and a request within budget |
| Curriculum.AllowedOverridesSurvive | sim2policy/src/sim2policy/hosted_g1_curriculum.py:89-103 | Every allowed override reaches the finalizer, in order, followed by the phase budget |
| Curriculum.OneBudget | sim2policy/src/sim2policy/hosted_g1_curriculum.py:89-94 | Whatever is overridden, the finalizer gets one step budget, the phase's own, and every other override |
| Curriculum.ConfigsMean | sim2policy/src/sim2policy/hosted_g1_curriculum.py:232-234 | Training is asked for the reviewed flat boundary and for the rough request |
| Curriculum.SchedulesMean | sim2policy/src/sim2policy/hosted_g1_curriculum.py:247-255 | Candidates are evaluated on every selection seed, the winner on every reserved one, so many times each, the finalizer's on its config's own |
| Curriculum.FlatPhase | sim2policy/src/sim2policy/hosted_g1_curriculum.py:223-258 | The flat phase yields exactly the evidence its inputs determine, fails only where none exists, and touches selection seeds only |
| Curriculum.CrossOver | sim2policy/src/sim2policy/hosted_g1_curriculum.py:306-363 | The crossing is the determined one, its record written once on both sides, and its own checks never fail for trainers within their request |
| Curriculum.RoughPhase | sim2policy/src/sim2policy/hosted_g1_curriculum.py:364-400 | The winner and its explanation are those selection determines from all retained checkpoints |
| Curriculum.Judge | sim2policy/src/sim2policy/hosted_g1_curriculum.py:398-412 | One evaluation on reserved seeds, of the winner whatever comes after it, held against every criterion |
| Curriculum.Conclude | sim2policy/src/sim2policy/hosted_g1_curriculum.py:414-495 | The finalizer is called only after the input it is built from is durable, with exactly the committed call; the verdict is rejected exactly when the final episodes miss a hard criterion, accepted when they miss none |
| Curriculum.CommitmentMeans | sim2policy/src/sim2policy/hosted_g1_curriculum.py:414-460 | One parent digest, one winner, one request and one total run through every record a run commits to |
| Curriculum.StemOf | sim2policy/src/sim2policy/hosted_g1_curriculum.py:332 | The path the trainer loads from ends in the checkpoint's name without its ending |
| Curriculum.CallMeans | sim2policy/src/sim2policy/hosted_g1_curriculum.py:473-485 | The finalizer gets the rough run, the overrides with the request last, and what the input says |
| Curriculum.RunG1Curriculum | sim2policy/src/sim2policy/hosted_g1_curriculum.py:197-495 | At every crash point: effects follow one script, from the gate's checkpoint to the winner's finalization, rough requests within budget; immutable records are kept, every committed lineage is recoverable and under 450M; the verdict is what the final episodes earn; own checks never trip for trainers within request; an uninterrupted run succeeds exactly when its phases can |
| CurriculumHistory.ReservedSeedsAfterSelection | sim2policy/src/sim2policy/hosted_g1_curriculum.py:281-408 | In a run the curriculum and then the finalizer evaluate reserved seeds, on the winner, after its selection and a passed gate; nothing else does |
| CurriculumHistory.Session | sim2policy/src/sim2policy/hosted_g1_curriculum.py:106-495 | Over any runs and recoveries with any parties: reserved seeds are evaluated only on a selected checkpoint, and once the object store holds a finalization input every finalizer call carries it |
| CurriculumHistory.TakeTurn | sim2policy/src/sim2policy/hosted_g1_curriculum.py:106-495 | One more run or recovery keeps that history and never replaces an input the object store holds |
| CurriculumHistory.LocalInputCanBeSuperseded | sim2policy/src/sim2policy/hosted_g1_curriculum.py:106-194 | For any two inputs that share a transition: a recovery from a disk finalizes the one, a later run the other |
| Curriculum.Recover | sim2policy/src/sim2policy/hosted_g1_curriculum.py:106-194 | Recovery finalizes exactly when both records are there, agree and check out, with the call the input stands for |
| Curriculum.DownloadMeans | sim2policy/src/sim2policy/storage.py:130-170 | Recovery reads what the object store holds, and the disk where it holds nothing |
| Curriculum.RunThenRecover | sim2policy/src/sim2policy/hosted_g1_curriculum.py:106-194 | A run dead anywhere, disk lost or kept, then recovered: the finalizer gets exactly the call the run made or was about to make |
| SlidingWindow.WindowHolds | saas/backend/app/showcase.py:97-129 | A limiter that forgets nothing admits at most the limit in any half-open window, whatever the readings |
| SlidingWindow.InOrderAgrees | saas/backend/app/showcase.py:114-129 | While no access looks further back than an earlier one pruned, every verdict is the full-history one, compactions included |
| SlidingWindow.AllowedWithinLimit | saas/backend/app/showcase.py:114-129 | Calls that never enter late admit no client more than the limit in any window |
| SlidingWindow.LateCallsAgreeIff | saas/backend/app/store.py:560-573 | A reading after a greater one gets the full-history verdict in every history exactly when it is not late or at most one call is allowed |
| SlidingWindow.LateAfterSweepAgreeIff | saas/backend/app/showcase.py:117-129 | After a compaction with a greater reading, exactly when it is not late or no call is allowed |
| SlidingWindow.RaceExceedsLimit | saas/backend/app/showcase.py:114-129 | Two threads that read a monotone clock before the lock and enter in the other order admit one call too many in one window |
| SlidingWindow.RateLimiter.Compact | saas/backend/app/showcase.py:117-121 | Compaction drops only what no later decision could see |
| SlidingWindow.RateLimiter.Allow | saas/backend/app/showcase.py:114-129 | For any readings, what the table holds is what pruning leaves; the verdict is the full-history one if none entered late; the table outgrows its bound only with active clients |
| SlidingWindow.CodeRequests.AllowCodeRequest | saas/backend/app/store.py:560-573 | For any readings, limits and windows, what is held is what pruning leaves; the verdict is the full-history one while no call looks further back than an earlier one |
| Progress.NextMultipleMeans | sim2policy/src/sim2policy/custom_robot_job.py:749-801 | A threshold is the least multiple of its cadence above the highest step so far |
| Progress.CrossingsRise | sim2policy/src/sim2policy/custom_robot_job.py:736-750 | Checkpoints pass strictly more cadences each time, and there are never more than multiples reached |
| Progress.CrossingsCover | sim2policy/src/sim2policy/custom_robot_job.py:736-750 | The first report to pass so many cadences is always checkpointed |
| Progress.BestGrows | sim2policy/src/sim2policy/custom_robot_job.py:428-443 | One comparison keeps the retained best the earliest maximal evaluation |
| Progress.DurableProgressCallback.OnStep | sim2policy/src/sim2policy/custom_robot_job.py:724-801 | At most one checkpoint and one evaluation per call, exactly at crossings; thresholds and best stay exact for any stream |
| Progress.RunTraining | sim2policy/src/sim2policy/custom_robot_job.py:834-858 | The published policy is the earliest evaluation with the highest success rate and, of those, reward, or the last policy when there is none or the profile says so |
| EvaluationSeeds.NeverCollideIff | sim2policy/src/sim2policy/custom_robot_contract.py:583-609 | Seeds never collide at any episode count exactly when no two base seeds are congruent modulo the stride |
| EvaluationSeeds.NonNegativeNeverCollide | sim2policy/src/sim2policy/custom_robot_contract.py:596-609 | Accepted non-negative base seeds never collide |
| EvaluationSeeds.NegativeBaseSeedCollides | sim2policy/src/sim2policy/custom_robot_contract.py:596-609 | Accepted base seeds 0 and -1000 collide in four episodes |
| EvaluationSeeds.ShorterIsPrefix | sim2policy/src/sim2policy/custom_robot_contract.py:605-609 | A shorter schedule is a prefix of a longer one |
| EvaluationSeeds.RoundsAre | sim2policy/src/sim2policy/custom_robot_contract.py:605-609 | The first round is the base seeds in order, every later one the one before, one stride on |
| EvaluationSeeds.SeedsAnswered | sim2policy/src/sim2policy/custom_robot_contract.py:596-609 | Which requests are answered, and the error each other one gets |
| CanonicalJson.CharactersMean | sim2policy/src/sim2policy/custom_robot_contract.py:70-71 | The characters of a digest and of a safe name |
| CanonicalJson.NamesMean | sim2policy/src/sim2policy/custom_robot_contract.py:70-71 | How long a digest and a safe name are, what may stand where, and that every digest is a safe name |
| CanonicalJson.ScalarsMean | sim2policy/src/sim2policy/custom_robot_io.py:119 | Which JSON scalars compare equal: numbers across their kinds, everything else only with itself |
| SetupCatalog.NormalizeObject | saas/backend/app/environment_catalog.py:172-198 | Accepts exactly the objects whose every chosen number is in bounds, and fills in the defaults |
| SetupCatalog.CatalogOffers | saas/backend/app/environment_catalog.py:69-169 | The default and the bounds of every field of every kind |
| SetupCatalog.OneFieldGiven | saas/backend/app/environment_catalog.py:172-198 | A field given alone is kept where it may go, and every other one is at its default |
| SetupCatalog.NormalizeSetup | saas/backend/app/environment_catalog.py:249-288 | Accepts exactly acceptable requests; presets first, then the custom objects; errors name the first bad object |
| SetupCatalog.DigestIdentifies | saas/backend/app/environment_catalog.py:280-288 | Equal digests mean the same world or exhibit a hash collision |
| InputContract.MirrorAgrees | sim2policy/src/sim2policy/custom_robot_contract.py:47-68 | Every catalog bound equals the worker's |
| InputContract.TasksAgree | sim2policy/src/sim2policy/custom_robot_contract.py:37-44 | Both sides know the same tasks for the same robots |
| InputContract.ScenesAgree | sim2policy/src/sim2policy/custom_robot_contract.py:627-665 | The presets the catalog builds are the dictionaries the worker expects |
| InputContract.ValidateObjects | sim2policy/src/sim2policy/custom_robot_io.py:169-202 | Accepts exactly well-formed objects that are the scene's presets in order and then custom ones |
| InputDocuments.ValidateDocuments | sim2policy/src/sim2policy/custom_robot_io.py:96-217 | Accepts exactly the documents meeting every requirement, and returns what they decode to |
| InputDocuments.ManifestBindsContents | sim2policy/src/sim2policy/custom_robot_io.py:127-150 | One manifest is accepted with one robot and one setup only, unless they exhibit a hash collision |
| InputDocuments.AcceptedManifestMeans | sim2policy/src/sim2policy/custom_robot_io.py:60-150 | An accepted manifest has the reviewed versions, safe names, and the size, digest and path of both contents |
| InputDocuments.AcceptedMeans | sim2policy/src/sim2policy/custom_robot_io.py:96-217 | An accepted delivery's fingerprint is the one its digests give, its robot the one it names, and its setup canonical and supported |
| InputDocuments.FingerprintsAgree | sim2policy/src/sim2policy/custom_robot_contract.py:681-705 | Both sides derive the same fingerprint and refuse the same inputs |
| InputDocuments.FingerprintIdentifies | saas/backend/app/custom_training.py:265-286 | Equal fingerprints name the same robot, setup and runtime or exhibit a hash collision |
| InputDocuments.NormalizedObjectsAccepted | saas/backend/app/environment_catalog.py:275-279 | The worker accepts the objects of every setup the catalog normalizes |
| InputDocuments.ProducedIsAcceptedIff | saas/backend/app/custom_training.py:301-337 | What the producer encodes the worker accepts, exactly when the sizes, identities and robot digest the producer leaves unchecked are right |
| InputDocuments.Deliver | sim2policy/src/sim2policy/custom_robot_io.py:96-217 | Normalize, build, encode, validate: the worker ends with exactly the setup and robot that were sent |

## Left out

- OrchestrationRuns.CompletedHasArtifacts: Nebius backend only; MockBackend stores `completed` before its artifacts.
- OrchestrationPaths.CaseIgnored: upper-cases ASCII letters only, where the source uses Unicode upper-casing.
- OrchestrationRuns.AfterResume: says nothing about a resumed worker that has since died of an exception, which leaves its record unfinished.
- StepQuantum.BoundedPhaseSteps: its precondition is where the source returns at all, and float ceiling is taken as exact, which holds below 2^53.
- LocomotionGate.MinimumReliabilityFor: exact reals; float rounding near the 2^-200 resolution is not modelled.
- InputDocuments.ProducedIsAcceptedIff: the JSON codec, UTF-8 and SHA-256 are parameters with stated laws. The round trip is assumed only of values nested at most sixteen deep whose integers fit 64 bits and whose other numbers floats can be, and hundredths between -360 and 360 are assumed to be such; a negative zero and the three non-finite floats are not told apart.
- NebiusBackend's submission and polling workers are steps of the state machine over values; the handlers, start-up and the completion of a job also run on the classes (`Service`). Waiting and elapsed time appear only as a deadline that may come at any poll.
- Service.Process.PrepareRobotSetup: the lookups before the reservation (setup, robot, eligibility, previous attempt) are left out, and so is `retry_of`.
- Curriculum.RunG1Curriculum: config parsing, object keys, file name safety and the digest over the provenance record are not modelled; JSON records are compared as values.
- Curriculum.RunThenRecover: assumes an object store. With storage.mode "local", an allowed override and the shipped default, put_immutable_json does nothing and resume_named_checkpoint has no client, and neither is modelled.
- A local record is written whole or not at all, where write_immutable_local creates the file and then writes it, so that a crash may leave a truncated one.
- Curriculum.Judge: the finalizer reaches a verdict of its own from its own evaluation, which may differ from the curriculum's; only the seeds it evaluates and the call it gets are modelled.
- Quota and profile settings are constant over a run, and the database starts empty.
- Concurrent SaaS replicas sharing one database file: the source is single-replica.
- Catalog (preset) jobs, job logs, user-visible error texts and timestamps other than those that decide something.
- Legacy artifact manifests beyond the fact that they may be rewritten for a job that already has one.
- Sessions, pending login codes, robot and setup CRUD, analytics and campaign state: no property spanning operations.
- Pilot and diagnostic gates, pstdev in the aggregate, and the evidence checkers: each is one conjunction over a single record, and no other function depends on more than its verdict.
- XML validation, physics, PPO, rendering, storage transport and provider submission payloads: foreign code, kept as steps that may fail or return anything.
