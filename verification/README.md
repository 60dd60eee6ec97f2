# Verified models of the study, pull-request and documentation machinery

This project states, and proves with Dafny, what the workers of the repository promise when
everything happens at once: processes die between any two commits, commits are lost or land
although they raised, jobs are delivered again, and any number of workers act in between.

`dafny verify dfyconfig.toml` checks all of it.

## What is modelled

**The trial protocol** (`TrialProtocol`, `TrialSafety`, `TrialTheorems`, `TrialProgress`,
`TrialLiveness`, `TrialRuns`, `TrialDuplicates`, `TrialVerdicts`, `TrialWorkers`). Orchestrators allocate Optuna trial numbers under an advisory
lock, enqueue one job per number and check the stop conditions; a job executes its number,
tells Optuna, then inserts the app row, and reconciles when an earlier delivery died between
the two stores. `Step` is one atomic effect of anybody, `Run` any sequence of them. The
theorems speak about every run.

**The baseline trial** (`BaselineProtocol`, `BaselineTheorems`, `BaselineWorkers`): one
off-band trial per enqueued job, a partial unique index, and three places that stamp the study.

**The digest handoff** (`DigestHandoff`, `DigestTheorems`, `DigestDeletions`, `DigestWorkers`): the stop
transaction leaves a pending proposal, digest workers consume it under a lock.

**Follow-up chains** (`FollowupGate`, `FollowupChain`, `FollowupTheorems`,
`FollowupBranches`, `FollowupChildren`, `FollowupWorkers`): the gate, the suggestion a child runs, the depth
counter and the list of visited templates, while operators clone studies and stop chains.

**Proposals and pull requests** (`ProposalLifecycle`, `PrReconcile`, `ConfigDiff`, `GitClone`,
`PullRequest`, `PrWorkers`): webhooks, the polling reconciler, operators and workers that all
write to proposals; the pointer to the proposal merged last; the params file; a persistent
clone in any dirty state; branches and pull requests under retries and crashes.

**The dashboard** (`Strings`, `DependencyGraph`, `PriorityOrder`, `MergeOrder`,
`MarkdownTruncate`), **the guides navigation** (`LineText`, `ManagedBlock`, `NavSplice`) and
**the schedulers** (`CronCadence`, `ResumeSweep`).

## How to read it

- A protocol is a `State`, an `Event` type and a partial `Step`: `None` means that the event
  cannot happen there. `Run(s, events)` composes steps, `Init` or `INIT` is where it starts.
  An invariant `Inv` is kept by every step; the theorems follow from it.
- The code that changes state is a class with the same fields (`View()` reads them as a
  `State`). Its methods follow the source branch by branch. Between any two of their effects
  they let `others` act: arbitrary steps of every other process. What may fail is an
  argument. Each method returns, as a ghost value, the events it and the others made, and
  ensures `Run(old(View()), trace) == Some(View())`; so the theorems hold of the code. `Own`
  picks the worker's own steps out of a trace. Where a contract says what comes of a call that
  nobody disturbs (`others` gives nothing), it says so without the protocol, field by field.
- A theorem whose name ends in `Iff` gives an exact condition. Where a property of runs fails,
  it does so for each single run: one lemma says which steps break the property, in terms of
  the state they are taken in, a second one that a run has the property if and only if it has
  no such step, and others where such a step comes from and a run from the start that has one.
- The assumptions the code needs and does not enforce are conditions or parameters: one live
  execution per trial job (the job of a number is one entry of `jobs`); a fresh uuid per
  execution, modelled as the pair of number and attempt; metric values that are not NaN,
  modelled as `real`.

## Where the code and its comments or documentation disagree

The model follows the code.

- `backend/workers/trials.py:243-313`: delivery is documented as idempotent. If the study
  query or the idempotency query raises something other than an OperationalError on a
  redelivery, the failure path inserts a second row for the number
  (`TrialDuplicates.OneRowPerNumberIff`); since the max_trials stop counts rows, it can then
  fire while a number is missing (`TrialDuplicates.MaxTrialsStopIsExactIff`).
- `backend/workers/trials.py:484-530`: a failed row does not mean that Optuna holds the trial
  as FAIL (`TrialRuns.FailedRowBesideRunning`,
  `TrialRuns.FailedRowBesideComplete`).
- `backend/workers/orchestrator.py:307-309`: a death between `ask` and `enqueue_job` occupies
  a slot for good (`TrialProgress.UnattendedForGood`, `TrialProgress.StalledForever`).
- `backend/workers/orchestrator.py:377-396`: the resume query takes any one baseline row; a
  failed row beside the complete one can leave the study unstamped
  (`BaselineTheorems.ResumeStampsIff`). Two such rows need a second baseline job, which the
  queue accepts only once it has forgotten the result of the first, by default after an hour
  (`BaselineTheorems.SecondJobNeedsExpiry`).
- `backend/workers/digest.py:539-541`: the defensive DELETE names the row by id alone, so a
  proposal opened between the re-read and the commit can be deleted
  (`DigestDeletions.DeletesOnlyPendingIff`).
- `backend/workers/auto_followup.py:117`: the gate is called without a direction, so a
  minimizing study is judged as if it maximized (`FollowupGate.WorkerGateRewardsImprovementIff`).
- `backend/app/domain/study/auto_followup.py:167-171`: only a counter of exactly zero stops a
  chain; a negative one, which the API excludes, would never stop
  (`FollowupTheorems.ReachableLevels`).
- `backend/workers/auto_followup.py:99-109`: the one-child check and the INSERT hold no lock
  (`FollowupBranches.OneChildIff`). The check counts clones as well: cloning a study takes its
  follow-up away (`FollowupBranches.CloneSuppressesIff`).
- `backend/app/services/study_state.py:288-329`: setting the counter to zero is meant to stop
  a pending follow-up job; one that has already read its parent still inserts
  (`FollowupBranches.StopChainHoldsIff`).
- `backend/app/db/repo/proposal.py:263-285`: operator reject and reinstate read, check and
  write without a condition on the status, so a merged proposal can end rejected
  (`ProposalLifecycle.RowsConsistentIff`, `ProposalLifecycle.MergedForGoodIff`).
- `backend/workers/git_pr.py:850-887`: the remote branch is the only record of an opened pull
  request while the proposal is still pending (`PullRequest.OnePrPerBranchIff`), and a death
  right after the push strands the branch (`PullRequest.StrandedForGood`).
- `backend/workers/git_pr.py:465-488`: every failure to read the params file is meant to be
  reported; a file that is not UTF-8 raises past the handlers
  (`ConfigDiff.ParamsFile.ApplyConfigDiff`).
- `backend/workers/git_pr.py:1204-1230`: a params file or chart equal to what the base holds
  makes the commit fail (`GitClone.Clone.BuildBranch`).
- `scripts/build_mvp1_dashboard.py:1503-1517`: the comment speaks of one feature at a time;
  the loop appends whole tiers (`PriorityOrder.OrderNames`).
- `scripts/build_mvp1_dashboard.py:1066-1074`: two planned features with the sentinel depend
  on each other (`MergeOrder.SentinelCycleIff`).
- `scripts/build_mvp1_dashboard.py:414-438`: the length bound needs a limit of at least one
  (`MarkdownTruncate.TruncationFitsIff`).
- `website/scripts/build_guides.py:720-737`: the splice is documented to leave the rest of the
  file byte for byte. A file that already holds the fragment keeps its bytes when LF, CR LF and
  CR are its only line boundaries (`NavSplice.ResplicePreservesBytesIff`); a run that writes
  replaces every boundary by a newline (`NavSplice.SplicedIsOnlyNewlines`). The validator
  accepts an anchor inside the block, and the splice then removes it
  (`ManagedBlock.SpliceValidIff`).
- `backend/workers/judgments_resume.py:66-68`: the 26-hour expiry keeps the daily cap as long
  as the two clocks differ by at most an hour (`ResumeSweep.CapHoldsIff`).
- `backend/workers/pr_reconcile.py:280-290`: 480 minutes is expressible but not on the list of
  supported periods (`CronCadence.WhitelistMissesOnlyEightHours`).

## Model

| member | source | states |
|---|---|---|
| TrialProtocol.RunsCompose | backend/workers/orchestrator.py:110-325 | Running two event sequences one after the other is running their concatenation |
| TrialSafety.JobStepKeepsCell | backend/workers/trials.py:243-530 | Every action of a job, with every fault, keeps what its phase promises about its Optuna trial, its rows and its own id |
| TrialSafety.JobStepKeepsFinished | backend/workers/trials.py:333-345 | No action of a job edits a terminal Optuna trial or its parameters |
| TrialSafety.TakenIsLocal | backend/workers/trials.py:282-283 | An id can only be taken in the table by a row of the number whose execution drew it |
| TrialSafety.StepKeepsInv | backend/workers/orchestrator.py:205-325 | One step of anybody keeps the whole invariant: two stores agree per number, one lock owner, both limits, sound summaries |
| TrialSafety.RunKeepsInv | backend/workers/orchestrator.py:205-325 | Every run of any length keeps it |
| TrialTheorems.AllocationStaysWithinLimits | backend/workers/orchestrator.py:297-317 | With any number of concurrent orchestrators, allocated trials never exceed max_trials and in-flight trials never exceed the parallelism, although the two counts are read at different times |
| TrialTheorems.EnqueueIsNeverDuplicate | backend/workers/orchestrator.py:306-309 | An orchestrator about to enqueue a number finds no job for it, and no other orchestrator is inside the lock |
| TrialTheorems.CompleteRowsMatchOptuna | backend/workers/trials.py:301-340 | In every reachable state a complete app row has the value and the parameters of a COMPLETE Optuna trial |
| TrialTheorems.AtMostOneRowIsNotFailed | backend/workers/trials.py:433-463 | Whatever fails, a number has at most one row that is not a failed one, and it is the first |
| TrialTheorems.TerminalStateIsFinal | backend/workers/trials.py:433-439 | A trial enters a terminal Optuna state at most once: no continuation changes it |
| TrialTheorems.SettledNumberIsFrozen | backend/workers/trials.py:305-313 | While the idempotency queries cannot break, no step touches the Optuna trial or the rows of a number that has a row |
| TrialTheorems.MaxTrialsStopIsExact | backend/workers/orchestrator.py:281-284 | While they cannot break: when the max_trials stop has fired, exactly the numbers below the limit are allocated and each has exactly one row |
| TrialTheorems.MaxTrialsStopIsQuiet | backend/workers/orchestrator.py:281-284 | After that stop no job has anything left to do: every continuation leaves both stores as they are |
| TrialTheorems.StreaksExcludeEachOther | backend/workers/orchestrator.py:227-278 | The failure streak and the zero streak cannot hold on one table, whatever their windows, so their order is immaterial |
| TrialTheorems.NewestFirstSorts | backend/workers/orchestrator.py:630-675 | The window of the streak queries is the table in descending number order, nothing lost |
| TrialTheorems.InFlightIsRunning | backend/workers/orchestrator.py:678-692 | The in-flight count is the number of trials Optuna holds as RUNNING |
| TrialProgress.ProductiveStepsAreBounded | backend/workers/orchestrator.py:297-325 | However long a run, at most 2 * max_trials of its steps allocate a number or write a row |
| TrialProgress.DeathInTheWindow | backend/workers/orchestrator.py:307-309 | A death between ask and enqueue_job leaves a number that is unfinished, has no row, no job and nobody about to enqueue one |
| TrialProgress.UnattendedForGood | backend/workers/orchestrator.py:307-309 | Such a number stays as it is in every continuation |
| TrialProgress.LostNumberBlocksMaxTrialsStop | backend/workers/orchestrator.py:281-284 | One such number without a row keeps the max_trials stop from ever firing |
| TrialProgress.StalledForever | backend/workers/orchestrator.py:297-303 | As many such numbers as the parallelism stop allocation for good |
| TrialLiveness.StepLosesIff | backend/workers/orchestrator.py:304-316 | A step makes a number unsettled with nobody left to come back to it, if and only if it is a death between ask and enqueue, an enqueue that vanished, a job given up, or an acknowledgement after a swallowed tell(FAIL) |
| TrialLiveness.NothingLostIff | backend/workers/orchestrator.py:304-316 | In every run: at its end nothing is lost if and only if none of its steps was one of those |
| TrialLiveness.LosslessRunsAreNeverIdle | backend/workers/orchestrator.py:205-325 | In every run without such a step a job may still run, a number is about to be enqueued, the next tick finds an open slot, or the max_trials stop is due |
| TrialLiveness.CarefulRunsAreLossless | backend/workers/trials.py:476-523 | No death in the window, no vanished enqueue, no job given up and no swallowed tell(FAIL) are enough for that |
| TrialLiveness.CarefulRunsAreNeverIdle | backend/workers/orchestrator.py:205-325 | So such runs below max_trials always have a pending job or an open slot |
| TrialRuns.LiveCellCanFinish | backend/workers/trials.py:243-530 | Wherever a crash leaves a job, one undisturbed redelivery finishes it with a row, and a number without a row also ends terminal in Optuna |
| TrialRuns.RowStillPossibleIff | backend/workers/trials.py:243-530 | A number can still get a row if and only if it has one, its job is live, or an orchestrator is about to enqueue it |
| TrialDuplicates.StepDuplicatesIff | backend/workers/trials.py:484-530 | One step gives a number a second row if and only if it is a failed row that lands although the number has a row of an earlier execution |
| TrialDuplicates.OneRowPerNumberIff | backend/workers/trials.py:295-313 | In every run each number has at most one row if and only if none of its steps was such a write |
| TrialDuplicates.SightedRunsHaveOneRow | backend/workers/trials.py:295-313 | A run in which the queries before the idempotency check never break on a number with a row has one row per number, however often they break elsewhere |
| TrialDuplicates.BlindedRedeliveryDuplicates | backend/workers/trials.py:484-530 | From any reachable state, a redelivery of a number with a row on which they break adds a row unless its write is stopped |
| TrialDuplicates.DuplicateRowIsReachable | backend/workers/trials.py:484-530 | A run from the start that ends with two rows of one number |
| TrialDuplicates.MaxTrialsStopIsExactIff | backend/workers/orchestrator.py:281-284 | In every run the max_trials stop has ended, every number below the limit has exactly one row if and only if no step of the run wrote a number twice: the stop counts rows |
| TrialDuplicates.MaxTrialsStopMayFireEarly | backend/workers/orchestrator.py:281-284 | A run in which a duplicate makes the stop fire while a number was never asked for |
| TrialRuns.FailedRowBesideRunning | backend/workers/trials.py:484-530 | A failed row may stand beside a trial Optuna keeps RUNNING with nobody left to finish it |
| TrialRuns.FailedRowBesideComplete | backend/workers/trials.py:484-530 | A failed row may stand beside a trial Optuna holds as COMPLETE |
| TrialWorkers.OptunaStudy.Ask | backend/workers/orchestrator.py:307 | ask appends one RUNNING trial and returns its number |
| TrialWorkers.OptunaStudy.Tell | backend/workers/trials.py:434-435 | tell finishes a running trial with the value and raises on a finished one |
| TrialWorkers.OptunaStudy.CountInFlight | backend/workers/orchestrator.py:678-692 | The count is the number of unfinished trials |
| TrialWorkers.AppDatabase.HasTerminalRow | backend/workers/trials.py:119-132 | The lookup answers exactly whether the number has a row |
| TrialWorkers.AppDatabase.InsertTrial | backend/workers/trials.py:447-463 | INSERT and COMMIT append the row unless its id is taken; an error may hide a durable row |
| TrialWorkers.Deployment.Others | backend/workers/orchestrator.py:110-325 | Other processes may take any possible steps in between; they leave this job and this orchestrator alone |
| TrialWorkers.Deployment.CheckExistingRow | backend/workers/trials.py:295-313 | The idempotency check ends the job exactly when a row is found, and breaks into the failure path on other errors |
| TrialWorkers.Deployment.ReconstructFromOptuna | backend/workers/trials.py:338-345 | Reconciliation is a run of the protocol; the job returns, or re-raises an OperationalError, or goes on to the failure path; undisturbed, the row of the trial is all that is added |
| TrialWorkers.Deployment.TellComplete | backend/workers/trials.py:433-435 | Only an acknowledged tell leads to the INSERT; undisturbed, it sets state and value of this trial alone |
| TrialWorkers.Deployment.InsertFailed | backend/workers/trials.py:508-523 | Writing the failed row is a run of the protocol; the job returns if and only if the write did not raise |
| TrialWorkers.Deployment.TryChecked | backend/workers/trials.py:315-463 | After the idempotency check a finished trial only gets the row of its state and a running one is executed; undisturbed, the faults decide exactly what is told, what is written and how the try block ends |
| TrialWorkers.Deployment.RunLoaded | backend/workers/trials.py:347-463 | A running trial is scored, told complete and gets a complete row with that score, in this order |
| TrialWorkers.Deployment.EndTrial | backend/workers/trials.py:465-530 | A failure that is not re-raised is told to Optuna if the study was bound, and written as a failed row unless a row of this execution has landed |
| TrialWorkers.Deployment.RunTrial | backend/workers/trials.py:243-530 | Whatever fails and whatever the others do, run_trial is a run of the protocol; a normal return leaves a row for the number; undisturbed, both stores end exactly as the faults call for |
| TrialWorkers.RedeliveryRebuilds | backend/workers/trials.py:135-139 | A trial that was told but has no row gets one with its own state, value and parameters from the next undisturbed delivery |
| TrialWorkers.Deployment.EnterLoop | backend/workers/orchestrator.py:138-164 | A queued study is started, a running one resumed, any other one left as it is |
| TrialWorkers.Deployment.CheckStreaks | backend/workers/orchestrator.py:219-278 | Undisturbed, the study is failed for consecutive failures if and only if the five rows of greatest number are failed, else for no signal if and only if the twenty are complete at zero |
| TrialWorkers.Deployment.CheckLimits | backend/workers/orchestrator.py:280-295 | Undisturbed, the study is completed at max_trials if and only if the rows reach it, else on its time budget if and only if it has one and that is spent |
| TrialWorkers.Deployment.DecideTick | backend/workers/orchestrator.py:206-295 | The own steps of a tick are its checks in their order, up to the one that fails or completes the study; undisturbed, the status afterwards is the first that rows, limit and budget call for, and the running state if none does |
| TrialWorkers.Deployment.FillSlots | backend/workers/orchestrator.py:304-316 | Asking, suggesting and enqueuing slot by slot, all slots unless an enqueue raises; undisturbed, one new running trial with its parameters and a queued job for each |
| TrialWorkers.Deployment.Replenish | backend/workers/orchestrator.py:297-325 | Undisturbed, with the lock free and no enqueue raising, the allocated trials reach max_trials or those in flight equal the parallelism; a lock that is held leaves everything as it is |
| TrialWorkers.Deployment.Tick | backend/workers/orchestrator.py:205-325 | One tick is a run of the protocol and ends within both limits; its own steps are the checks and then a replenishment; undisturbed, the status is the due one and a study that goes on is filled up |
| TrialVerdicts.VerdictIsDue | backend/workers/orchestrator.py:230-295 | In every run, whatever the others do: the status an orchestrator writes is the one due on its own readings, the two streaks first, then the two limits, and a study that has left the running state keeps its status |
| TrialVerdicts.NothingDueBeforeLock | backend/workers/orchestrator.py:297-299 | It goes on to replenish only when none of them is due |
| TrialVerdicts.ReleaseWhenFilled | backend/workers/orchestrator.py:300-317 | It ends a replenishment only once it has asked for as many trials as its two counts leave room for |
| TrialVerdicts.FinalStatusIsJustified | backend/app/services/study_state.py:372-428 | In every reachable state, a failed or completed study was running when an orchestrator whose readings called for exactly that status wrote it |
| BaselineProtocol.Find | backend/workers/baseline.py:81-94 | The lookup by trial id finds the row of that id, or nothing if there is none |
| BaselineProtocol.StepKeepsInv | backend/workers/baseline.py:97-351 | One step of any job or orchestrator keeps: unique ids, at most one complete row, a stamp that names it |
| BaselineProtocol.RunKeepsInv | backend/workers/orchestrator.py:363-463 | Every run keeps it |
| BaselineTheorems.StampNamesTheCompleteRow | backend/app/services/study_state.py:434-513 | In every reachable state there is at most one complete baseline row, and a stamp names exactly that row and its metric |
| BaselineTheorems.StampIsForever | backend/app/services/study_state.py:484-513 | Once set the stamp never changes, and rows never change or go |
| BaselineTheorems.RetryStamps | backend/workers/baseline.py:115-136 | Wherever the job of an unstamped complete row is, its next undisturbed delivery stamps the study with it |
| BaselineTheorems.ResumeStampsIff | backend/workers/orchestrator.py:377-396 | The next resume stamps an unstamped complete baseline whichever row its LIMIT 1 query returns, if and only if no failed baseline row stands beside it |
| BaselineTheorems.EveryResumeStampsIff | backend/workers/orchestrator.py:491-537 | Over all runs in which at most k baseline jobs are accepted for the study, every resume stamps an unstamped complete baseline, if and only if k is at most one |
| BaselineTheorems.SecondJobNeedsExpiry | backend/workers/orchestrator.py:491-537 | A second job is accepted only after the queue has forgotten the result of the first |
| BaselineTheorems.ResumeMayMissTheBaseline | backend/workers/orchestrator.py:479-488 | A reachable state, after such an expiry: a complete baseline nobody has stamped, no job left, and a resume that leaves it so |
| BaselineWorkers.Deployment.StampBaselineTrial | backend/app/services/study_state.py:434-513 | The stamp is rejected exactly for a row that is missing or not complete, and only takes effect on an unstamped study |
| BaselineWorkers.Deployment.InsertRow | migrations/versions/0020_studies_baseline_trial.py:73-80 | The INSERT is refused exactly by the primary key or the partial unique index |
| BaselineWorkers.Deployment.TryTrial | backend/workers/baseline.py:97-268 | A row of that id is not written again, a score is written unless the study has a complete row, a failure goes to the failure path |
| BaselineWorkers.Deployment.EndTrial | backend/workers/baseline.py:269-351 | The stamp goes to a study without one; a failed row is written unless there is one of that id |
| BaselineWorkers.Deployment.RunBaselineTrial | backend/workers/baseline.py:97-351 | The job is a run of the protocol; if it found or wrote the complete row and the stamp did not fail, the study is stamped; undisturbed, the faults alone decide what is written and stamped |
| BaselineWorkers.Deployment.SelfStamp | backend/workers/baseline.py:269-288 | The self-stamp is never rejected: the row is there and complete |
| BaselineWorkers.Deployment.LookForBaseline | backend/workers/orchestrator.py:363-396 | A stamped study ends the phase; otherwise a row there is seen, a complete one leads to the stamp, and only without a row a job is enqueued |
| BaselineWorkers.Deployment.ResolveAndEnqueue | backend/workers/orchestrator.py:491-537 | A job with a new id is enqueued if and only if every earlier one is forgotten; then the wait is for that id, else for the study |
| BaselineWorkers.Deployment.Poll | backend/workers/orchestrator.py:553-568 | A poll ends the wait if and only if it finds a row of the id or of the study, and with that row |
| BaselineWorkers.Deployment.WaitForBaseline | backend/workers/orchestrator.py:540-594 | Polling, at least once, ends with what the last poll found, with nothing only at the deadline, and with a row that is there at the start at once |
| BaselineWorkers.Deployment.StampFromOrchestrator | backend/workers/orchestrator.py:440-463 | Unless its write fails, the study ends stamped with the complete row seen |
| BaselineWorkers.Deployment.RunBaselinePhase | backend/workers/orchestrator.py:363-463 | The resume check, enqueue, wait and stamp of an orchestrator are a run of the protocol; a complete row it has seen is the baseline afterwards unless the write failed |
| DigestHandoff.StepKeepsInv | backend/workers/digest.py:617-1195 | One step of the stop transaction, the queue, anybody writing proposals, or a digest worker keeps the handoff invariant |
| DigestHandoff.RunKeepsInv | backend/workers/digest.py:617-1195 | Every run keeps it |
| DigestTheorems.HandoffIsNeverLost | backend/workers/orchestrator.py:723-777 | In every reachable state a completed study has a proposal row or a digest, never two digests, and no row was deleted without a digest |
| DigestTheorems.DeletionComesWithDigest | backend/workers/digest.py:508-542 | No step loses a proposal row unless the same step adds the digest |
| DigestTheorems.DigestIsFinal | backend/workers/digest.py:660-687 | A digest once written is never replaced or removed |
| DigestTheorems.PersistStepLeaves | backend/workers/digest.py:1165-1186 | In every run the step in which a commit lands writes one digest and, row by row: standard fills the row of that id if it is still pending and changes no other, degraded writes none, the other two take the row of that id away |
| DigestTheorems.DigestStillPossibleIff | backend/app/db/repo/proposal.py:598-623 | Unaided, a completed study can still get its digest if and only if a pending proposal, a queued job or a live worker is left |
| DigestTheorems.DormantIsReachable | backend/workers/orchestrator.py:723-777 | A reachable state from which, unaided, no digest comes: the fresh proposal superseded by the chain rollup and the enqueue lost |
| DigestDeletions.StepDeletesIff | backend/workers/digest.py:508-542 | One step deletes a proposal that is not pending if and only if the row it selected as pending, and did not insert, has been moved on since |
| DigestDeletions.DeletesOnlyPendingIff | backend/workers/digest.py:539-541 | In every run only pending proposals are deleted if and only if none of its steps was such a delete: it goes by id alone |
| DigestDeletions.CalmRunsDeleteOnlyPending | backend/workers/digest.py:508-542 | It is enough that nobody moves a proposal on while a digest worker holds it selected |
| DigestDeletions.OpenedProposalIsDeleted | backend/workers/digest.py:508-542 | A run from the start in which a proposal with an opened pull request is deleted |
| DigestWorkers.Deployment.EnsurePendingProposal | backend/workers/digest.py:426-460 | A pending row is used if there is one, whichever the query returns, else one is inserted inside the open transaction |
| DigestWorkers.Deployment.PersistDigest | backend/workers/digest.py:1115-1195 | The final transaction is a run of the handoff and ends the worker; unless the commit is lost the study has exactly the digest written here and, undisturbed, the rows its kind asks for |
| DigestWorkers.Deployment.ReachProposal | backend/workers/digest.py:617-810 | Undisturbed, a worker gets to its proposal if and only if the study is completed, has no digest, the lock is free, and key, pricing and budget allow the call or there is no best trial |
| DigestWorkers.Deployment.WriteDigestInLock | backend/workers/digest.py:814-1195 | The digest is a placeholder without a best trial, degraded from a model that is not capable, empty if the template declares none of the parameters there are, else standard |
| DigestWorkers.Deployment.GenerateDigest | backend/workers/digest.py:617-1195 | With every early return, lost commit and interleaving the job is a run of the handoff in its order and writes at most one digest, of the kind that is due; undisturbed, exactly when nothing stands in its way, and the rows are as that kind asks for |
| FollowupGate.FirstDecileIsExtremum | backend/app/domain/study/auto_followup.py:87-124 | The implicit baseline is the best metric among the first tenth of the trials by number, at least one; none if none of them has a metric |
| FollowupGate.EnqueueIff | backend/app/domain/study/auto_followup.py:159-225 | The gate opens if and only if the study neither failed nor was cancelled, has a non-zero depth counter and a best metric, and beats its baseline by more than epsilon, or without a baseline every metric of the first tenth of its trials, of which there is one |
| FollowupGate.WorkerGateRewardsImprovementIff | backend/workers/auto_followup.py:117 | The worker calls the gate without a direction: over all studies, with or without a baseline, it opens for those that earn it if and only if they maximize; a minimizing study that improved never passes |
| FollowupChain.SelectExecutableFollowup | backend/app/domain/study/auto_followup_strategy.py:96-173 | The selection is the first item that is neither text nor a swap to a visited template; candidates and dropped ids are counted exactly |
| FollowupChain.OrderedUnique | backend/workers/auto_followup.py:361-363 | list(dict.fromkeys(...)) keeps exactly the members |
| FollowupChain.ChildDescends | backend/workers/auto_followup.py:342-393 | Every child is born with its parent counter minus one, the same strategy and other keys, and a template that is the parent one or was never visited |
| FollowupChain.StepKeepsInv | backend/workers/auto_followup.py:77-418 | Every step, also of operators cloning and stopping chains, keeps that a study is either posted by an operator or descends from its parent in that sense, and that a counter is the one at birth or was stopped |
| FollowupTheorems.DepthCountsDown | backend/workers/auto_followup.py:342-344 | Along the links of the worker a study is born with the counter of the posted study minus its level, and the level never exceeds a non-negative counter |
| FollowupTheorems.ChainsAreBounded | backend/workers/auto_followup.py:117-158 | In every run, a chain from a study posted with depth d >= 0 is at most d links long, and from one without a depth it has none, whatever is cloned or stopped |
| FollowupTheorems.ReachableLevels | backend/app/domain/study/auto_followup.py:167-171 | Exactly the levels up to d are reached from a study posted with depth d, and every level if d is negative: the gate stops at zero only |
| FollowupBranches.StepBranchesIff | backend/workers/auto_followup.py:99-109 | One step gives a study a second follow-up if and only if it is an INSERT for a parent that has got one since the children check |
| FollowupBranches.OneChildIff | backend/workers/auto_followup.py:99-109 | In every run every study is followed up at most once if and only if no step was such an INSERT |
| FollowupBranches.ApartRunsDoNotBranch | backend/workers/auto_followup.py:99-109 | It is enough that the queue never runs two jobs of one parent at a time |
| FollowupBranches.TwinsBranch | backend/workers/auto_followup.py:99-109 | Two jobs of one parent at a time do branch |
| FollowupBranches.FollowUpStillPossibleIff | backend/workers/auto_followup.py:86-158 | In any reachable state a study can get one more follow-up if and only if a worker is past its check, or it has no child and an allowing counter is left, in the table or in what a worker has read |
| FollowupBranches.StopChainHoldsIff | backend/app/services/study_state.py:288-329 | Stopping a chain at a completed study keeps it from being followed up if and only if no worker has read the old counter and can still pass or has passed its check |
| FollowupBranches.CloneSuppressesIff | backend/app/api/v1/studies.py:258-275 | Cloning a study suppresses its follow-up, since the worker finds a child, if and only if no worker is past its check |
| FollowupBranches.AtMostDepthDescendants | backend/workers/auto_followup.py:99-109 | In every run that does not branch, a study posted with depth d >= 0 has at most d follow-ups in all; clones do not count |
| FollowupBranches.OneStudyPerLevel | backend/workers/auto_followup.py:99-109 | Without branching a chain has at most one study per level |
| FollowupTheorems.FollowedChainsNeverReturn | backend/workers/auto_followup.py:349-363 | Under follow_suggestions, from the posted study on, the visited list is exactly the distinct templates used so far in order, without duplicates, and a template once left is never used again |
| FollowupTheorems.NarrowChainsKeepTheTemplate | backend/workers/auto_followup.py:196-202 | Without it the whole chain stays on the template of the posted study and carries none of the per-link keys |
| FollowupChildren.ChildTakes | backend/workers/auto_followup.py:284-393 | The child takes what was selected: a swap to an existing template its template and space, a narrow or widen its space on the template of the parent, anything else the default narrowing; the kind says which, and the counter is one less |
| FollowupChildren.HistoriesIff | backend/workers/auto_followup.py:349-363 | The template histories of chains that follow suggestions, over all runs, are exactly the non-empty lists in which no template once left comes back and which the depth leaves room for |
| FollowupWorkers.BuildChild | backend/workers/auto_followup.py:196-393 | Over every digest, missing target and raised error the reassigned template, space and config are the child that takes the first executable suggestion |
| FollowupWorkers.StudyTable.EnqueueFollowupStudy | backend/workers/auto_followup.py:77-418 | A child is inserted exactly when there was none at the check, the counter first read is set and non-zero and the lift suffices; it takes what the suggestions to the parent first read allow; undisturbed it is all that changes, and the whole is a run of the chain |
| ProposalLifecycle.ChangeKeepsRow | backend/app/db/repo/proposal.py:288-594 | No conditional UPDATE leaves the lifecycle: rows stay consistent, merged ones untouched, only opened ones are merged |
| ProposalLifecycle.StepKeepsInvIff | backend/app/db/repo/proposal.py:263-285 | One step keeps rows consistent and every pointer at the newest merge if and only if it is not an operator write over an opened or merged proposal |
| ProposalLifecycle.RunKeepsInv | backend/workers/pr_reconcile.py:169-272 | Every run of webhooks, polls, workers and operators without such a write keeps them |
| ProposalLifecycle.StepFollowsLifecycleIff | backend/app/db/repo/proposal.py:288-594 | From any state, one step moves proposals along allowed transitions only if and only if it is not an operator write to a row that is neither where the request found it nor where it sends it |
| ProposalLifecycle.LifecycleIff | backend/app/db/repo/proposal.py:288-594 | In every run every move is allowed if and only if none of its operator writes is outdated in that sense |
| ProposalLifecycle.LeftForGood | backend/app/db/repo/proposal.py:365-436 | Then a proposal once opened is only ever opened or merged, and a rejected one stays rejected |
| ProposalLifecycle.MergedForGoodIff | backend/app/db/repo/proposal.py:365-436 | A merged proposal stays merged and unchanged through a continuation if and only if no operator request writes to it |
| ProposalLifecycle.SelectedClosedNeverCloses | backend/workers/pr_reconcile.py:231-257 | A tick that selected a row as closed leaves a row reopened meanwhile as it is |
| ProposalLifecycle.PointerIgnoresOrder | backend/app/db/repo/config_repo.py:123-198 | The merge time a repo points at depends only on what was merged, not on the order of observation |
| ProposalLifecycle.PointerMovesIff | backend/app/db/repo/config_repo.py:163-174 | A merge moves the pointer if and only if it is strictly newer than the one pointed at |
| ProposalLifecycle.RowsConsistentIff | backend/app/db/repo/proposal.py:263-285 | In every run status and pull-request state agree on every row at all times if and only if no operator request writes over an opened or merged proposal |
| ProposalLifecycle.PointerSurvivesWriteIff | backend/app/db/repo/config_repo.py:123-198 | The pointer of a repo survives an operator write if and only if the row written is not the one it names |
| ProposalLifecycle.MergedProposalIsRejected | backend/app/db/repo/proposal.py:263-285 | A run from the start in which a proposal merged on GitHub ends rejected |
| ProposalLifecycle.ObserversAgree | backend/app/api/webhooks/github.py:184-224 | Webhook and poll leave the same merged row and pointer, also after a close without a merge time that came first; a close that is reopened leaves no trace |
| PrReconcile.CandidatesAreAll | backend/app/db/repo/proposal.py:511-560 | The candidate list holds exactly the rows the query selects, each with the state it was selected in |
| PrReconcile.StampedRowsRest | backend/app/db/repo/proposal.py:543-556 | After the poll that stamps a closed row, and whatever happens to the row meanwhile, no tick within a day finds it closed and polls it |
| PrReconcile.ProposalTable.UpdatePointer | backend/app/db/repo/config_repo.py:123-198 | The conditional write of the last-merged pointer |
| PrReconcile.ProposalTable.ObserveMerge | backend/workers/pr_reconcile.py:171-220 | The merge and the pointer in one transaction, with the WHERE clause of the state selected |
| PrReconcile.ProposalTable.ObserveClose | backend/workers/pr_reconcile.py:224-267 | A row selected as closed is only stamped; one selected as open is closed |
| PrReconcile.ProposalTable.Observe | backend/workers/pr_reconcile.py:145-275 | An answer that tells a merge and its time is written as a merge, any other closed one as a close, nothing else is written; it counts as reconciled if and only if status or pull-request state of the row changed |
| PrReconcile.QuietTick | backend/workers/pr_reconcile.py:81-275 | A tick nobody disturbs leaves every polled row where its selected row and its answer put it: merged at that time, closed, stamped or unchanged; every other row stays |
| PrReconcile.QuietKeepsInv | backend/workers/pr_reconcile.py:181-210 | And keeps every pointer at the newest merge of its repo |
| PrReconcile.ProposalTable.ReconcilePrState | backend/workers/pr_reconcile.py:81-275 | Candidate by candidate the tick issues exactly the update its answer calls for, to the row the others have left by then; all are polled unless a rate limit ends the tick, each counted once by what came of it |
| ConfigDiff.OverriddenAtUnique | backend/workers/git_pr.py:490-494 | Overriding an object at the keys of a diff has one result |
| ConfigDiff.ParamsFile.ApplyConfigDiff | backend/workers/git_pr.py:449-495 | Exactly a fully declared, well-typed diff over a JSON object (or a blank file) is applied; the file then holds the object overridden exactly at its keys; on any error it is unchanged, and the first cause is reported, except that a file that is not UTF-8 raises past every handler |
| ConfigDiff.ApplyingTwiceIsOnce | backend/workers/git_pr.py:490-495 | Applying the same diff again changes nothing |
| GitClone.Clone.ResetHard | backend/workers/git_pr.py:349-354 | A hard reset puts the base in place and keeps only untracked files outside it |
| GitClone.Clone.PrepareBranch | backend/workers/git_pr.py:322-364 | From any dirty state the clone ends clean on the new branch at the remote base |
| GitClone.Clone.BuildBranch | backend/workers/git_pr.py:1016-1042 | The branch tip is the base with the params file overridden (and the chart); a refused diff leaves the working tree at the base; nothing is committed exactly if a file would not change |
| GitClone.BranchChangesOnlyTheParams | backend/workers/git_pr.py:967-1042 | Every path but the params file and the chart is the base, and the params file reads back as the overridden object |
| PullRequest.SameBranchIff | backend/workers/git_pr.py:280-287 | Two proposals share a branch if and only if they belong to the same study or are the same manual proposal |
| PullRequest.RunKeepsInv | backend/workers/git_pr.py:746-1200 | Every run keeps: only the lock owner is past the lock, and it has seen its branch absent from the remote |
| PullRequest.StepOnePrIff | backend/workers/git_pr.py:1029-1103 | From any state, one step gives a branch a second pull request if and only if it is a POST for a branch that has had one and has none open |
| PullRequest.OnePrPerBranchIff | backend/workers/git_pr.py:850-887 | In every run, over all retries, crashes and concurrent workers, a branch has at most one pull request if and only if none of its steps was such a POST |
| PullRequest.UninvitedRunsHaveOnePr | backend/workers/git_pr.py:850-887 | It is enough that no branch that has had a pull request is pushed again and none is closed while its creation is retried |
| PullRequest.HeadsThatStayHaveOnePr | backend/workers/git_pr.py:923-953 | A second push needs the deletion of a branch with a pull request: without one, and without such a close, every branch has at most one |
| PullRequest.ClosedMidRetryIsRepeated | backend/app/git/github_client.py:94-169 | A run in which a pull request closed between two attempts is created again |
| PullRequest.DeletedBranchIsRepeated | backend/workers/git_pr.py:1103-1189 | A run in which a death before the proposal is marked and a deletion lead to a second one |
| PullRequest.DeathAfterPushStrands | backend/workers/git_pr.py:1029-1103 | A death after the push and before the pull request strands the branch |
| PullRequest.StrandedForGood | backend/workers/git_pr.py:923-953 | A stranded branch never gets a pull request, in any continuation without a deletion |
| PrWorkers.Deployment.CheckRemoteBranch | backend/workers/git_pr.py:367-378 | The worker goes on exactly if the branch is absent from the remote |
| PrWorkers.Deployment.GitPush | backend/workers/git_pr.py:1029-1042 | Afterwards the branch on the remote is the tree pushed and every other branch as it was; a lost push changes nothing |
| PrWorkers.Deployment.PushTree | backend/workers/git_pr.py:1029-1053 | The branch shows the tree pushed until somebody deletes it, every other branch its own; undisturbed it is all that changes |
| PrWorkers.Deployment.BuildAndPush | backend/workers/git_pr.py:967-1042 | What the branch then shows is the base fetched, with the params file overridden at the keys of the diff; nothing is pushed of a refused diff or when a file would not change |
| PrWorkers.Deployment.CreatePr | backend/app/git/github_client.py:94-169 | Posting is a run of the protocol; attempts that leave no trace are repeated, up to three in all, and the first answer ends them; unless the branch is deleted it shows the same tree whenever a pull request is created |
| PrWorkers.Deployment.OpenPr | backend/workers/git_pr.py:746-1200 | Whatever fails and whatever the others do the job is a run of the protocol in its order; unless somebody deletes the branch, the remote shows the base with the params file overridden when the pull request is created and at the end; a good plan nobody disturbs ends with the pull request and the proposal opened, a job that finds the lock held is queued again |
| PrWorkers.CleanRun | backend/workers/git_pr.py:746-1200 | With nothing in its way the fixed sequence of own steps leads to the branch pushed, one new pull request, the proposal opened and the lock free, and changes nothing else |
| PrWorkers.RetriesSo | backend/app/git/github_client.py:126-169 | The number of attempts is exact: one more than the failures before the first answer, three if all fail |
| DependencyGraph.GroundedIff | scripts/build_mvp1_dashboard.py:1503-1511 | The tiers place exactly the features from which no walk along dependencies runs into a cycle |
| DependencyGraph.LongestChain | scripts/build_mvp1_dashboard.py:1503-1511 | A feature placed in tier t has a chain of exactly t dependencies |
| PriorityOrder.ScopeMembers | scripts/build_mvp1_dashboard.py:1489-1494 | Exactly the folders of features in scope are listed |
| PriorityOrder.ScopeKeepsLastValue | scripts/build_mvp1_dashboard.py:1489-1494 | Of several features with one folder the last is kept |
| PriorityOrder.ScopeKeepsFirstOrder | scripts/build_mvp1_dashboard.py:1489-1494 | The folders stand in the order in which they first appear |
| PriorityOrder.BuildIncoming | scripts/build_mvp1_dashboard.py:1497-1501 | Dependencies outside the scope are dropped, all others kept |
| PriorityOrder.PriorityOrderUnique | scripts/build_mvp1_dashboard.py:1489-1521 | The specified order is unique |
| PriorityOrder.OrderNames | scripts/build_mvp1_dashboard.py:1503-1521 | The loop terminates with every feature once, tier by tier, each tier by type, name and dict order; the cycle fallback is taken exactly if the tiers do not reach everything |
| PriorityOrder.PriorityOrder | scripts/build_mvp1_dashboard.py:1477-1521 | The features themselves, in the specified order of their folders |
| PriorityOrder.DependenciesFirst | scripts/build_mvp1_dashboard.py:1503-1521 | A feature that depends on no cycle comes after all its dependencies |
| PriorityOrder.BlockedComeLast | scripts/build_mvp1_dashboard.py:1507-1511 | The features a cycle blocks are exactly the tail |
| PriorityOrder.FallbackIff | scripts/build_mvp1_dashboard.py:1507-1511 | The fallback is not taken if and only if the graph has no cycle |
| PriorityOrder.TopologicalIff | scripts/build_mvp1_dashboard.py:1477-1521 | Every feature comes after all its dependencies if and only if there is no cycle |
| PriorityOrder.TierIsLongestChain | scripts/build_mvp1_dashboard.py:1503-1521 | A feature tier is the length of its longest chain of dependencies |
| MergeOrder.BeforeIsStrictOrder | scripts/build_mvp1_dashboard.py:1024-1042 | The merge order is a strict total order |
| MergeOrder.ScopedFolders | scripts/build_mvp1_dashboard.py:1066-1071 | The sentinel of a shipped feature stands for the backend features merged before it, of a planned one for all |
| MergeOrder.ExpandTransitiveDeps | scripts/build_mvp1_dashboard.py:1045-1074 | Every feature with the sentinel is rewritten in place to the sorted, duplicate-free list of its explicit and covered dependencies without itself; all others are left alone |
| MergeOrder.ExpansionIsFinal | scripts/build_mvp1_dashboard.py:1045-1074 | A second expansion changes nothing |
| MergeOrder.ShippedWalkGoesBack | scripts/build_mvp1_dashboard.py:1068-1069 | A sentinel edge of a shipped feature goes strictly back in merge order |
| MergeOrder.ShippedSentinelsAreAcyclic | scripts/build_mvp1_dashboard.py:1068-1069 | So the sentinels of shipped features alone form no cycle |
| MergeOrder.SentinelCycleIff | scripts/build_mvp1_dashboard.py:1066-1074 | The sentinels form a cycle if and only if a planned feature with the sentinel is covered by the sentinel of another backend feature |
| MarkdownTruncate.StripUnclosedMarkdown | scripts/build_mvp1_dashboard.py:395-411 | The loop terminates with the longest balanced blank-delimited prefix |
| MarkdownTruncate.SafeTruncateMarkdown | scripts/build_mvp1_dashboard.py:414-438 | The cut point, the stripping and the ellipsis as specified |
| MarkdownTruncate.TruncationUnique | scripts/build_mvp1_dashboard.py:414-438 | The specification leaves no freedom |
| MarkdownTruncate.TruncationIsSafe | scripts/build_mvp1_dashboard.py:414-438 | The text itself when it fits; otherwise a right-trimmed prefix plus an ellipsis with balanced brackets, parentheses and backticks |
| MarkdownTruncate.TruncationFitsIff | scripts/build_mvp1_dashboard.py:414-427 | The result fits if and only if the text does or the limit is at least 1 |
| LineText.SplitOfJoin | website/scripts/build_guides.py:725-737 | Joining break-free lines and splitting again gives the lines back |
| LineText.JoinOfSplitIff | website/scripts/build_guides.py:725-737 | Splitting and joining gives the text back if and only if newline is its only line boundary |
| ManagedBlock.SpliceValidIff | website/scripts/build_guides.py:693-717 | A splice of valid lines is valid again if and only if the anchor was not inside the block, which the validator does not check |
| ManagedBlock.SpliceKeepsOutside | website/scripts/build_guides.py:720-737 | A splice moves nothing outside the block and puts exactly the fragment inside |
| ManagedBlock.SpliceAbsorbs | website/scripts/build_guides.py:720-737 | A later splice erases an earlier one |
| ManagedBlock.FirstSpliceEndsAtAnchor | website/scripts/build_guides.py:733-734 | The first splice puts the end marker right before the anchor |
| NavSplice.SpliceTextAbsorbs | website/scripts/build_guides.py:720-737 | Splicing f1 and then f2 writes the same text as splicing f2 alone |
| LineText.ReadKeepsLines | website/scripts/build_guides.py:743 | Reading with universal newlines changes no line |
| LineText.ReadIsOnlyNewlinesIff | website/scripts/build_guides.py:743 | What is read has newline as its only line boundary if and only if the file has none but LF, CR LF and CR |
| NavSplice.SplicedIsOnlyNewlines | website/scripts/build_guides.py:736-737 | What a splice writes has newline as its only line boundary |
| NavSplice.ResplicePreservesBytesIff | website/scripts/build_guides.py:740-750 | A run with the fragment a file already holds keeps its bytes if and only if the file has no line boundary but LF, CR LF and CR |
| NavSplice.RenderedFragmentIsClean | website/scripts/build_guides.py:673-690 | A rendered fragment of single-line titles splits into its lines, none of them a marker or the anchor |
| NavSplice.MkdocsFile.UpdateMkdocsNav | website/scripts/build_guides.py:740-750 | The file is rejected untouched, or spliced as read with universal newlines, and written only on a difference; then its bytes change |
| NavSplice.OnlyLastRunCounts | website/scripts/build_guides.py:740-750 | From a valid unmarked file no run is rejected and only the last run counts |
| NavSplice.RunsFromUnmarkedFile | website/scripts/build_guides.py:693-750 | After any number of runs the lines outside the block are the ones first read, the block ends right before the anchor and the next run is accepted |
| ResumeSweep.RedisServer.Incr | backend/workers/judgments_resume.py:103 | INCR restarts an absent or expired counter at one |
| ResumeSweep.IncrementAndCheckCap | backend/workers/judgments_resume.py:87-105 | The count after INCR and whether it exceeds the cap; a raised command leaves what took effect |
| ResumeSweep.ResumeStuckJudgmentLists | backend/workers/judgments_resume.py:148-224 | A tick equals its specification, and candidates = enqueued + capped + errored |
| ResumeSweep.TickIsRun | backend/workers/judgments_resume.py:148-224 | A tick is a run of visits |
| ResumeSweep.RunsCompose | backend/workers/judgments_resume.py:148-224 | Consecutive ticks compose |
| ResumeSweep.NotExpiredWithinItsDay | backend/workers/judgments_resume.py:66-68 | The refreshed expiry cannot reset a counter within its day |
| ResumeSweep.CapHoldsIff | backend/workers/judgments_resume.py:66-105 | Each list is handed over at most cap times per UTC day in every run if and only if worker and server clock stay within one hour of each other |
| ResumeSweep.FaultFreeRunsHandOverFirstVisits | backend/workers/judgments_resume.py:180-210 | Without faults each list is handed over on exactly its first cap visits of the day |
| CronCadence.CadenceExactIff | backend/workers/pr_reconcile.py:317-320 | For every n >= 1 the schedule fires exactly at the multiples of n if and only if n divides 60 or is a multiple of 60 dividing 1440 |
| CronCadence.WhitelistMissesOnlyEightHours | backend/workers/pr_reconcile.py:280-290 | The supported periods are exactly the expressible ones, except that 480 is missing |
| CronCadence.PollCronKeepsItsPeriod | backend/workers/judgments_resume.py:108-133 | Whatever is configured, the job fires exactly at the multiples of the effective period |

## Left out

- Scoring, Optuna's samplers, query rendering, engine adapters, LLM calls, prompts, budgets and prices: a step succeeds with some value, raises, or returns early.
- Logging, telemetry, HTTP details, the body and chart of a pull request, token redaction, path and host checks, secrets: no effect on the states modelled.
- Clocks of waits and drains: a wait is a number of polls, a deadline may pass at any poll. The day arithmetic of the resume counter and the cron minutes are exact.
- The drain after a cancel and the deletion of studies; rows deleted by cascade are therefore never missing from a table.
- Loss of the database connection in the middle of a transaction: a lock is held as long as its process lives.
- The time for which Arq keeps results: a baseline job id is refused until an expiry event, which may come at any time after the job is done; other queues forget at once, which allows more runs than the queue does.
- The cancel cascade below the study it is asked for is one event per study, and a cancelled study is one whose gate does not open.
- Files are written as on a POSIX system: a newline is stored as one character.
- Optuna's WAITING state is never produced, and PRUNED appears only in the row rebuilt from Optuna.
- Several reads inside one database session of the digest worker are one step when nothing depends on what happens between them.
- git: nested repositories, a detached HEAD, conflicts at checkout and concurrent pushes by other programs to the same branch; trees others push are not tracked.
- JSON text: a file is its object plus a layout, so formatting other than the worker's own counts as different text but is not parsed character by character.
- The order in which dropped suggestion ids are reported, and the age of a proposal against the 90-day cutoff of the candidate query, which is an argument.
- How a child's search space is narrowed or shifted: an argument; the template, the counter and the keys of its configuration are modelled.
- `hard_delete_proposal`, which only the test endpoint calls.
- Range checks of configuration values, relevance judgments, UBI imports, demo data, the dashboard's HTML, regular-expression parsing of statuses and pull-request numbers.
- Non-ASCII case mapping of `str.lower()` in declared parameter types.
- TrialTheorems.SettledNumberIsFrozen: needs queries that cannot break, as TrialDuplicates.OneRowPerNumberIff shows.
