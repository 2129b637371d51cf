# The V5 state kernel, modelled and proved in Dafny

The V5 kernel is a transactional store of goals, tasks, plans, steps, actions, observations, evidence, claims,
verifications, obligations and confirmations. Every operation is one atomic transaction guarded by a revision check;
`run_verification`, `execute_action` and `recover` are sequences of transactions that other callers can interleave with
and that a crash can cut anywhere. This project models those operations, runs them in every interleaving, and proves
what the kernel keeps.

`dafny verify dfyconfig.toml` checks the whole project.

## How it is built

| Part | Modules | What it holds |
|---|---|---|
| Data | `Types` | rows, statuses, transition tables, the database `Db` |
| Operations | `Obligations`, `Safety`, `Execution`, `EvidencePipeline`, `Work`, `Repair` | one function per transaction: the store it commits and the answer it gives |
| The running code | `Stores` (class `Store`), `Graphs` | the imperative operations: loops, writes one after the other, crash points, rollback; each method is proved equal to its transaction function |
| Runs | `Kernel` | a step relation over callers, workers of the three multi-transaction procedures, and crashes; logs of starts and of external effects |
| Invariants | `Invariants`, `RowWrites`, `WorkProofs`, `ExecutionProofs`, `StrictRows`, `StrictProofs`, `RunProofs` | `Inv` and `Evolves` hold of every run, human repair included; `Strict` and `StrictEvolves` of runs without repair |
| Answers | `StalePlans`, `Confirming`, `Activation`, `Completion`, `Edges`, `Proposals`, `Endings`, `Resolving`, `Repairs`, `Attempts`, `Records`, `Creations` | when each call commits and what it writes, said of the rows and of the call's own words, without the functions and tables it is computed with: every one of them is held by a second statement |
| Laws | `RunTheorems`, `Theorems`, `Grounding`, `Verdicts`, `Reopening`, `Ledgers`, `Resolution`, `Revisions`, `Acceptance`, `Transfers`, `Freezing`, `Recovery`, `Sweeping`, `Driving`, `Drivability`, `Arrivals`, `Classifying`, `Atomicity`, `Frames`, `Refinement` | the properties in the table below |

A run is any finite sequence of labels from the empty store: a caller's transaction, a step of a worker, or a crash that
ends every worker. `Reachable` runs may contain human repairs; `CleanlyReachable` ones do not. A law about two points of
a run is stated for a reachable world `w` and any continuation `Run(w, labels)`. A crash inside a transaction commits
nothing, so in runs a crash happens between steps; that each method really rolls back is the contract of the `Store`
methods (`Ends`). `Refinement` closes the circle: what `ExecuteAction`, `RunVerification`, `Recover` and `DriveStep`
do is a stretch of such a run. `Sweeping` and `Driving` put `recover` and `_drive_step` among other callers, transaction by
transaction.

## What turned out

- An obligation created by `mark_unknown_outcome` can never be resolved in a run without repair: resolution asks for
  evidence from an Observation of the origin action (v5/obligations.py:254-276), and an action that ended
  UNKNOWN_OUTCOME never gets one. `Resolution.ResolvableIffObserved` is the exact condition. The constitution and
  tests/test_e2e_file_write.py:212-230 present resolution as the normal end of such an obligation; the test inserts the
  Observation with raw SQL.
- A second external effect for an action needs a repair of that very action to PENDING, and with one it can always come:
  `Reopening.SecondCallNeedsReopening`. Other repairs break nothing. One effect per committed start holds in any case.
- A step-bound PASS is grounded only because `run_method_for_action` always names an action. `run_verification` called
  without one skips the gate (`Grounding.UngatedPasses`); each verification row of the model remembers whether that ever
  happened to it, so the grounding law is stated per verification, for every run.
- The second transaction of `run_verification` does not look at the result again, so of two overlapping runs the later
  verdict overwrites a final one (`Verdicts.OverwriteExample`). Without repair a final result stays exactly when nobody is
  evaluating the verification at that moment (`Verdicts.FinalVerdictStays`).
- `_drive_step` does not look at what `complete_step` answers, so it can report COMPLETED for a step another caller
  cancelled meanwhile (`Driving.CancelledStepReported`); `Driving.StepCompletedIff` is the exact condition.
- Obligation hand-over belongs to the operations that end a goal or task, not to terminal statuses:
  `transition_object` accepts terminal targets and hands over nothing (`Transfers.TransitionHandsOverNothing`).
- KNOWN_NOT_STARTED is no proof that nothing happened: `classify_action_state` says it of every CANCELLED action, and an
  action can be cancelled while its capability is out (`Classifying.CancelledMayHaveBeenCalled`). Of PENDING actions it is true
  (`Classifying.ClassifiedTruly`).
- `transition_object` ends a task without clearing its pointer, so actions of its plan still begin
  (`Activation.TransitionStopsNobody`); the stale-worker law for ended tasks is about complete, cancel and archive
  (`StalePlans.EndedTaskStartsNothing`).
- A return inside `store.write()` commits what was written before it (v5/store.py:265-266). The one operation that writes
  before a call that may reject is `create_plan_with_steps`, and there the three composed calls cannot reject
  (`Stores.Store.CreatePlanWithSteps`, `Stores.Store.BindRequirement`).
- `create_plan_with_steps` answers with a plan whose in-memory graph is empty (v5/work.py:392-393), and the live loop walks
  that one, so steps run in proposal order. It honours the committed graph exactly when every dependency points backwards
  in the proposal (`Acceptance.ProposalOrderHonours`); proposals where one does not are accepted all the same.
- `complete_object`, `cancel_task` and `cancel_goal` called on a plan, step or action with the right revision raise an
  exception rather than reject where the integrity guard reads a field the row does not have; the model answers `Raised`.

## Conventions of the model

Identifiers are a fresh-id supply with one kind per table; a number minted in a transaction that rolls back may be used
again. The rows of `obligation_events` are kept as the `history` of their obligation. Timestamps, JSON, the audit log and
free text are not modelled. A capability's outcome, an evaluator's verdict, a named criterion's verdict, a schema check
and the human's approval are parameters. `Noop` is the idempotent `Ok(noop=True)`, `Raised` an escaping exception,
`Crashed` a simulated process death.

## Model

| member | source | states |
|---|---|---|
| `Graphs.HasCycle` | v5/work.py:256-274 | terminates on every graph, self-loops and dependencies that are no keys included, and answers true exactly when there is a directed cycle |
| `Graphs.CycleCheck.Visit` | v5/work.py:260-269 | the depth-first visit: a found back edge closes a real cycle; otherwise everything reached is finished (black), lies on no cycle, and the stack is as before |
| `Graphs.DependencyOrder` | v5/live_loop.py:509-531 | raises exactly when the steps repeat, a dependency lies outside the list or a cycle runs through it; otherwise a permutation of the steps, each after all its dependencies; without edges the proposal order itself |
| `Stores.Store.Crashes` | v5/store.py:290-294 | an armed crash point fires exactly once |
| `Creations.NewGoalIsEmpty` | v5/work.py:149-166 | a new goal has an unused id, no task and no obligation below it, and under ALL_REQUIRED cannot be completed as it stands |
| `Creations.NewTaskIsAChild` | v5/work.py:169-196 | created exactly under a live goal at the expected revision; one more child of that goal and of no other, without children or obligations of its own |
| `Creations.NewPlanActivates` | v5/work.py:199-216 | created exactly for a live task; without steps, the pointer untouched; activating it next commits exactly when the task is ACTIVE or BLOCKED and its pointer names no plan in force |
| `Stores.Store.CreateStep` | v5/work.py:219-250 | step row and graph entry committed together, refused when the graph would become cyclic |
| `Stores.Store.AddDependency` | v5/work.py:277-307 | the edge goes into the committed graph and the step together, checked for cycles as it will be after the commit |
| `Edges.DependencyCommitsIff` | v5/work.py:277-307 | an edge is refused exactly when the plan, its revision or the steps do not fit or the step is already reached from what it is to depend on; otherwise the graph gains exactly that one edge, from the step to its dependency |
| `Edges.StepCommitsIff` | v5/work.py:219-250 | a step is refused exactly when its plan is not open or a declared dependency already leads to the step; otherwise row and graph entry say what was declared |
| `Edges.RedirectedAcyclicIff` | v5/work.py:256-274 | an acyclic graph stays so when a step is made to depend on a set exactly when the step is reached from none of them |
| `Stores.Store.ValidateSpecs` | v5/work.py:360-390 | the first fault of a proposal in source order, or none |
| `Stores.Store.ValidateSpec` | v5/work.py:361-390 | capability known, indices in range and unrepeated (with the seen set), each requirement known and for the capability |
| `Stores.Store.BuildGraph` | v5/work.py:394-399 | the position graph turned into a graph over the minted step ids |
| `Stores.Store.CreatePlanWithSteps` | v5/work.py:310-450 | all or nothing: the whole proposal or a rejection with the store untouched |
| `Proposals.ProposalCommitsIff` | v5/work.py:310-450 | accepted exactly for a live task at the expected revision, with a step, every step sound (capability and methods known, indices in range and unrepeated, requirements for its capability) and no circle among the positions it declares |
| `Proposals.DependsAsDeclared` | v5/work.py:394-422 | an accepted step depends, in its row and in the committed graph, on exactly the positions the proposal named |
| `Proposals.RefusedForItsFirstFault` | v5/work.py:360-400 | an unsound proposal is refused with its first fault in the order it was written, a circular one with DEPENDENCY_CYCLE |
| `Stores.Store.BindRequirement` | v5/work.py:424-440 | claim, verification and binding of one requirement: none of the three composed calls can reject, so no early return commits half a plan |
| `Stores.Store.BindLocked` | v5/work.py:621-637 | binds an existing verification to a goal or task; any other kind or a missing end is refused |
| `Records.BindingBinds` | v5/work.py:606-637 | binds exactly goals and tasks to existing verifications; from then on the object cannot be completed while the verification is not PASS |
| `Stores.Store.ActivatePlan` | v5/work.py:454-499 | the running operation is the transaction Activation.ActivateCommitsIff fixes; a crash leaves the store as it was |
| `Stores.Store.SupersedePlan` | v5/work.py:502-546 | old plan SUPERSEDED and pointer moved together: a crash at either point leaves neither |
| `Activation.ActivateCommitsIff` | v5/work.py:454-499 | commits exactly for an ACTIVE or BLOCKED task at the expected revision whose pointer is free, and a DRAFT plan of it; then the pointer is on the plan and nothing else changed |
| `Activation.SupersedeCommitsIff` | v5/work.py:502-546 | commits exactly for such a task pointing at the old plan, and a DRAFT plan of it; then the old plan is SUPERSEDED by the new one and the pointer on it, and nothing else changed |
| `Activation.ActivatedPlanWorks` | v5/work.py:493-499 | afterwards every unfrozen PENDING action of the plan begins under it, and none of the task's other plans does |
| `Activation.SupersededPlanStops` | tests/test_concurrency.py:195-216 | afterwards the new plan's workers start; the old plan's can neither begin nor record |
| `Activation.TransitionStopsNobody` | v5/work.py:773-812 | a task ended by transition_object keeps its pointer: unfrozen PENDING actions of that plan still begin under it |
| `Stores.Store.RequiredPass` | v5/work.py:681-689 | true exactly when every required verification of the object exists and is PASS |
| `Stores.Store.CompleteObject` | v5/work.py:640-708 | the running operation, counting by loops, is the transaction Completion.GoalCompletesIff and TaskCompletesIff fix, with the hand-over in the same commit; a crash at any of its three points leaves the store as it was |
| `Completion.GoalCompletesIff` | v5/work.py:640-708 | a goal is completed exactly at the expected revision, sound, unfinished, with its policy met by its tasks (neither CANCELLED nor ARCHIVED; done when COMPLETED) and every binding PASS: ALL_REQUIRED, ANY_REQUIRED, N_OF_M, CRITERION and the unknown rule each said of the rows |
| `Completion.TaskCompletesIff` | v5/work.py:586-603 | a task likewise by the uncancelled steps of its active plan, done when COMPLETED or SKIPPED; its pointer is cleared |
| `Stores.Store.TerminalTransition` | v5/work.py:737-768 | cancel and archive: status, pointer and hand-over in one commit, undone as a whole by a crash in the loop |
| `Endings.CancelCommitsIff` | v5/work.py:713-768 | cancel_task and cancel_goal commit exactly from a status CANCELLED is entered from, sound and at the expected revision; CANCELLED, the pointer cleared, everything OPEN below handed over and counted |
| `Endings.ArchiveCommitsIff` | v5/work.py:723-768 | archive_object likewise, for goals and tasks only and never from BLOCKED |
| `Stores.Store.TransitionObject` | v5/work.py:773-812 | one table-checked status move of a goal, task, plan or step |
| `Stores.Store.CompleteStep` | v5/work.py:815-830 | COMPLETED only from a status whose table row allows it |
| `Endings.TransitionCommitsIff` | v5/work.py:773-812 | a move commits exactly when the table, read from the target backwards, has the present status; it moves the status alone |
| `Endings.OthersRaise` | v5/work.py:657-664 | on a plan, step or action complete_object, cancel_task and cancel_goal raise at the right revision and reject at a wrong one; archive_object rejects |
| `Endings.TablesAgree` | v5/enums.py:121-174 | the five transition tables read forwards and read backwards, as where each status is entered from, say the same |
| `Endings.TerminalMeansNoWayOut` | v5/enums.py:176-197 | the terminal sets are exactly the statuses no table row leads out of |
| `Freezing.FreezeHolds` | v5/work.py:837-864 | commits exactly on a goal or task, changes no status, and no operation but a repair changes it afterwards, at any later point of any run |
| `Freezing.FrozenKeepsStatus` | v5/work.py:661-664 | a goal or task that is not sound keeps its status until somebody repairs, whatever happened before |
| `Creations.NewObligationIsOpen` | v5/obligations.py:100-128 | created exactly for the registry or an existing task, and OPEN below exactly its owner and the owner's goal |
| `Stores.Store.TransferLockedRow` | v5/obligations.py:147-174 | owner moved by compare and swap, a transfer to the present owner changes nothing |
| `Records.TransferMoves` | v5/obligations.py:147-174 | an OPEN obligation moves exactly from the expected owner to another valid one, with one event; to the owner it has it is a no-op, whoever was expected |
| `Creations.AbandonedIsClosed` | v5/obligations.py:185-207 | accepted exactly from OPEN, for a named human, at the right revision; it leaves every OPEN set, keeps owner and origin, and no obligation operation accepts it again |
| `Stores.Store.ClaimConcerns` | v5/obligations.py:254-276 | true exactly when the newest claim version cites evidence of an Observation of the action |
| `Stores.Store.Resolve` | v5/obligations.py:210-251 | the running operation is the transaction Resolving.ResolveCommitsIff fixes, the provenance found by walking the newest citations |
| `Resolving.ResolveCommitsIff` | v5/obligations.py:210-251 | commits exactly for an OPEN obligation at the expected revision and a PASS whose claim's newest version cites evidence of an Observation of the origin action; closes it with one event and writes nothing else |
| `Resolving.ResolvedByPass` | v5/obligations.py:232-240 | in every run without repair: what is RESOLVED was taken out of OPEN by a resolve_obligation at a store in which the verification it named was such a PASS |
| `Stores.Store.TransferSubtreeToUor` | v5/obligations.py:335-348 | the loop that ignores rejections moves every obligation of the scan and counts exactly those; it can crash only after a transfer |
| `Stores.Store.ConfidenceJustified` | v5/evidence.py:176-189 | HIGH exactly when some cited evidence is CONFIRMED |
| `Stores.Store.CreateClaimLocked` | v5/evidence.py:198-218 | version 1 of a new claim, refused for missing citations or an unjustified confidence |
| `Stores.Store.NewestVersion` | v5/evidence.py:228-232 | the largest version of a claim, none exactly when the claim does not exist |
| `Stores.Store.ReviseClaim` | v5/evidence.py:221-244 | one more version, the earlier ones kept |
| `Records.NewClaim` | v5/evidence.py:176-218 | a claim is accepted exactly when all it cites exists and, for HIGH, one citation is CONFIRMED; version 1 of an unused id |
| `Records.RevisedClaim` | v5/evidence.py:221-244 | a revision is accepted exactly for an existing claim on such citations, as the version after the newest |
| `Stores.Store.CreateVerificationLocked` | v5/evidence.py:274-302 | a PENDING verification of an existing claim at a known independence level |
| `Stores.Store.RecordRuntimeEvidence` | v5/evidence.py:113-134 | CONFIRMED_RUNTIME only with an existing Observation as its origin |
| `Stores.Store.CreateInferenceEvidence` | v5/evidence.py:137-155 | status forced to INFERENCE, every reference must be evidence or a claim |
| `Creations.UserEvidenceJustifiesNothing` | v5/evidence.py:158-171 | what a user says raises no confidence, carries no HIGH claim alone and connects no claim to an action |
| `Stores.Store.RunVerification` | v5/evidence.py:305-398 | RUNNING committed first, the verdict by a second transaction that evaluates the gate again; a crash between leaves RUNNING |
| `Stores.Store.StartRun` | v5/evidence.py:329-356 | RUNNING only for an unfinished verification whose action, when named, is OBSERVED and of its step |
| `Stores.Store.FinishRun` | v5/evidence.py:360-398 | the verdict only when the gate still holds; an evaluator error or no answer is INCONCLUSIVE |
| `Records.EvaluationBegins` | v5/evidence.py:329-356 | the first transaction commits exactly for a PENDING or RUNNING verification whose named action is OBSERVED and of its step |
| `Records.EvaluationEnds` | v5/evidence.py:360-398 | the second commits exactly when that gate is open and the claim exists, whatever the result is by then: PASS exactly when satisfied, FAIL exactly when violated, INCONCLUSIVE exactly without an answer |
| `Stores.Store.CreateConfirmation` | v5/safety.py:22-33 | an unconfirmed row bound to action, revision, capability and arguments |
| `Stores.Store.ConfirmRow` | v5/safety.py:36-46 | the first confirmation time stays |
| `Stores.Store.LatestConfirmation` | v5/safety.py:70-74 | a confirmed row of the action none of whose confirmed rows is later; none exactly when there is none |
| `Stores.Store.ConfirmationGate` | v5/safety.py:56-102 | refuses exactly when required and the latest confirmed row, or the action's own binding, does not match action, revision, capability and arguments |
| `Confirming.ConfirmedRowOpensGate` | v5/safety.py:22-102 | the protocol from end to end: staged and confirmed, a row starts the action if and only if it is PENDING, unfrozen and at the expected revision, the row names exactly its revision, capability and arguments, none confirmed later, and another row it is bound to agrees; unconfirmed, it starts nothing |
| `Creations.NewActionIsUnstarted` | v5/execution.py:83-140 | accepted exactly for an unfinished step at the expected revision, its capability and valid arguments; then unused id, PENDING, never started, never called, at any point of any run |
| `Creations.CapabilityCorrespondence` | v5/execution.py:83-140 | at every point of every run, retries and repairs included, an action has the capability its step declares |
| `Stores.Store.BeginChecks` | v5/execution.py:155-182 | the checks before the write, in order, are those of StalePlans.BeginCommitsIff; with a required confirmation none passes without the gate, and the row it was asked with is the query's answer |
| `Stores.Store.BeginExecuting` | v5/execution.py:145-189 | EXECUTING committed before any effect, exactly as StalePlans.BeginCommitsIff says for the row the query answered; a crash leaves the action as it was |
| `Stores.Store.ObserveAction` | v5/execution.py:216-250 | Observation and OBSERVED together, exactly as StalePlans.ObserveCommitsIff says: a crash between the two writes leaves neither |
| `StalePlans.BeginCommitsIff` | v5/execution.py:145-210 | begin_executing commits exactly for an unfrozen PENDING action at the expected revision, under a plan that is its step's and the one its task points at when one is named, and with an answer to a required confirmation |
| `StalePlans.ObserveCommitsIff` | v5/execution.py:192-250 | mark_observed commits exactly for an unfrozen EXECUTING action under such a plan, and writes OBSERVED with one Observation of what came back |
| `StalePlans.StaleWorkerIsTold` | tests/test_concurrency.py:203-216 | a worker refused for its plan alone is told PLAN_MISMATCH when its step is of another plan and PLAN_SUPERSEDED when the task points elsewhere by now |
| `StalePlans.StaleIff` | v5/execution.py:192-210 | no begin and no observation commits under a plan, whoever asks and with whatever gate, exactly when no unfrozen unfinished action of it is served by the task's pointer |
| `StalePlans.LeftPlanStartsNothing` | tests/test_concurrency.py:195-216 | without repair, once a task's pointer has moved to another plan nothing is begun or observed under the plan it left at any later point |
| `StalePlans.EndedTaskStartsNothing` | v5/work.py:692-700 | without repair, once a task has ended with its pointer cleared nothing is begun or observed under any of its plans at any later point |
| `Stores.Store.UnknownOutcomeOf` | v5/execution.py:255-294 | UNKNOWN_OUTCOME and one OPEN obligation of the owning task together |
| `Stores.Store.FailAction` | v5/execution.py:307-328 | FAILED only when no effect is definite |
| `Attempts.ReplyDecides` | v5/capabilities/__init__.py:495-515 | how an execution nobody disturbed ends: a value OBSERVED and on record, a failure without effect FAILED, any other failure UNKNOWN_OUTCOME with one OPEN obligation of the owning task |
| `Attempts.UnknownCommitsIff` | v5/execution.py:255-294 | commits exactly for an unfrozen EXECUTING action at the expected revision: the owning task is always found, status and obligation are written together |
| `Creations.CancelledIsNeverCalled` | v5/execution.py:331-345 | accepted exactly from PENDING or EXECUTING at the expected revision; cancelled while PENDING, the capability is never called unless a repair sets this action back to PENDING |
| `Creations.RetryCommitsIff` | v5/execution.py:350-375 | commits exactly for an UNKNOWN_OUTCOME or FAILED action whose task is at the expected revision with attempts left; the owning task is always found |
| `Attempts.RetryWrites` | v5/execution.py:376-396 | the next attempt and the task's charge in one commit, and nothing else |
| `Stores.Store.FreezeActionRow` | v5/execution.py:434-452 | the action FROZEN, its status and Observations kept |
| `Attempts.FrozenActionRests` | v5/execution.py:434-452 | commits for any action there is; afterwards it is neither begun, observed nor marked uncertain |
| `Stores.Store.PlanAggregateHolds` | v5/repair.py:281-311 | a repaired plan has a successor when SUPERSEDED and an acyclic graph without self-dependency; a value that is no mapping is refused |
| `Stores.Store.RepairChecks` | v5/repair.py:106-151 | revision, whitelist, fabrication and aggregate rules decide, and a rejection changes nothing |
| `Stores.Store.RepairRow` | v5/repair.py:100-196 | the running operation is the repair the lemmas of Repairs fix kind by kind, with its hand-over, or after a crash nothing |
| `Repairs.GoalRepair` | v5/repair.py:100-196 | read off the target: accepted exactly with a reason, at the revision and with goal fields; every named field has its value, every other one stays, FROZEN thaws unless named, one revision up; what is OPEN below is handed over exactly when the status it ends with is terminal |
| `Repairs.TaskRepair` | v5/repair.py:100-196 | a task likewise; a named pointer is null or a DRAFT or BLOCKED plan of the task and does not leave one in force |
| `Repairs.PlanRepair` | v5/repair.py:258-311 | a plan likewise; SUPERSEDED needs a successor, a graph is a mapping without cycle |
| `Repairs.StepRepair` | v5/repair.py:100-196 | a step likewise |
| `Repairs.ActionRepair` | v5/repair.py:126-142 | an action likewise; OBSERVED only where an Observation of it exists |
| `Repairs.VerificationRepair` | v5/repair.py:126-142 | a verification: its result alone, never to a PASS it does not have |
| `Repairs.ObligationRepair` | v5/repair.py:143-163 | an obligation: a named owner is the registry or an existing task; no event is written |
| `Repairs.TerminalTargetHandsOver` | tests/test_repair.py:164-175 | a task repaired to a terminal status ends there, and every OPEN obligation below it is the registry's in the same commit, counted |
| `Stores.Store.AbandonUnrepairableObject` | v5/repair.py:199-255 | integrity given up and obligations handed over in one commit |
| `Repairs.GivingUp` | v5/repair.py:199-255 | accepted exactly for a goal, task or action at the revision that was not given up before; the status stays, what is OPEN below is handed over |
| `Stores.Store.Recover` | v5/recovery.py:33-65 | the loop recovers exactly the actions found EXECUTING; the two lists it answers are exactly the newly UNKNOWN and the mismatched ones, when nobody else writes between the iterations |
| `Sweeping.SweepSettles` | v5/recovery.py:33-65 | with any transactions of others between its reads and commits, crashes and restarts included: every action found EXECUTING is decided, frozen, or still on the list, and all are decided or frozen when the loop is through |
| `Stores.Store.ExecuteAction` | v5/capabilities/__init__.py:457-515 | the capability is called once, only after a committed begin, and its reply is recorded by the matching transaction; each crash point leaves exactly what was committed |
| `Stores.Store.DriveStep` | v5/live_loop.py:554-670 | the drive when nobody else writes meanwhile. Without a crash it reports COMPLETED only from a drivable store with a capability that returns, and always when moreover the gate asks for nothing or the confirmation will open it; then the action is OBSERVED with the returned value, evidence of it is on record, every bound verification is PASS and the step COMPLETED; at most one external effect; every ending is one of a run |
| `Arrivals.UndisturbedDriveArrives` | v5/live_loop.py:554-670 | left alone, from a drivable store with an open gate, a capability that returns and satisfied evaluators, the driver arrives: COMPLETED reported and the step COMPLETED |
| `Arrivals.ConfirmedDriveArrives` | v5/live_loop.py:533-600 | where the required gate has no answer the first attempt is turned away, the host stages and confirms, and the second attempt arrives |
| `Arrivals.RefusalsEndTheDrive` | v5/live_loop.py:579-661 | the driver asks once: a second or any other refusal, a declined confirmation and a verification that does not pass each end the drive |
| `Driving.DriveIsARun` | v5/live_loop.py:554-670 | a drive with any labels of others between its transactions is a run of the kernel |
| `Driving.DriveProves` | v5/live_loop.py:574-645 | whatever others do meanwhile, the confirmation policy included: at most one call; a drive reporting COMPLETED made exactly one, and the returned value is on record as an Observation with evidence resting on it, then and at every later point, repairs included |
| `Driving.SeenPassWasPass` | v5/live_loop.py:647-661 | every verification the drive went on from was PASS in the store at that moment |
| `Driving.CleanDriveKeeps` | v5/live_loop.py:647-661 | without repair the action is OBSERVED at the end, and every verification that passed while nobody else was evaluating it still is PASS |
| `Driving.StepCompletedIff` | v5/live_loop.py:663-670 | the drive reports COMPLETED in any case; the step is COMPLETED if and only if nobody touched it since it was set EXECUTING, or someone else completed it |
| `Driving.CancelledStepReported` | v5/live_loop.py:663-670 | another caller cancels the step just before: COMPLETED is reported for a CANCELLED step |
| `Atomicity.RefusalChangesNothing` | v5/store.py:256-280 | none of the transaction functions the methods are proved equal to joins a write to a refusal; that the code does not either is the contract of the methods, Stores.Store.CreatePlanWithSteps first |
| `RunProofs.PerformKeeps` | v5/store.py:256-280 | every operation, repair included, keeps the cross-table invariant and never takes back a row, a reference or a revision |
| `RunProofs.PerformStrict` | v5/enums.py:121-197 | every operation but repair keeps the stronger facts: exact observations, mirrored graphs, ledgers, grounded resolutions, acyclic supersession, absorbing statuses, charged retries |
| `RunProofs.StepKeepsWorld` | v5/capabilities/__init__.py:457-515 | every step of every worker keeps the invariant together with the logs of starts and effects |
| `RunTheorems.RunKeeps` | v5/store.py:256-280 | the invariant holds at every point of every run, and between any two points the tables only evolve |
| `RunTheorems.RunStrict` | v5/recovery.py:17-65 | so do the stronger facts in every run without repair |
| `Grounding.StepBoundPassObserved` | v5/verification.py:329-354 | in every run in which a verification is only evaluated for an action, its step-bound PASS has an Observation of an action of that step, repairs included |
| `Grounding.CompletionIsObserved` | v5/work.py:681-695 | a completion that commits has every required verification PASS and the effect of every bound step observed |
| `Grounding.GateRefuses` | v5/evidence.py:335-353 | without an Observation of its step, evaluating a verification for any action is refused in both transactions |
| `Grounding.UngatedPasses` | v5/evidence.py:335-353 | without an action nothing is asked and PASS commits: the gate is necessary |
| `Verdicts.FinalVerdictStays` | v5/evidence.py:329-398 | without repair a final result stays at every later point if and only if nobody is evaluating the verification now |
| `Verdicts.EvaluationCommits` | v5/evidence.py:360-396 | a worker past the first transaction can commit any verdict, whatever the result is by then: its gate is still open |
| `Verdicts.LaterVerdictOverwrites` | v5/evidence.py:360-396 | from any reachable store with a PENDING verification and an open gate: two overlapping evaluations, the first verdict final, the second over it |
| `Verdicts.OverwriteExample` | v5/evidence.py:360-396 | the run from the empty store in which PASS becomes FAIL |
| `Theorems.OneConfirmationOneStart` | v5/safety.py:56-102 | every gated start is backed by a row confirmed for its action, revision, capability and arguments, and no row backs two, repairs included |
| `Theorems.EffectsFollowStarts` | v5/capabilities/__init__.py:457-515 | each external effect follows its own committed start, no start has two, repairs included |
| `Attempts.BeginsAreLogged` | v5/execution.py:183-189 | the log of starts these laws speak of has every begin that commits, with its revision and the row that answered, and no other |
| `Reopening.CalledAtMostOnce` | v5/capabilities/__init__.py:457-515 | in any run, repairs included but for one of this action to PENDING: the capability is called at most once for the action, and only once it is no longer PENDING |
| `Reopening.SecondCallNeedsReopening` | v5/repair.py:71-79 | once called, a second call can come if and only if a repair of this very action to PENDING may |
| `Reopening.EffectAtMostOnce` | v5/recovery.py:17-65 | in particular without repair: at most one effect per action, none while PENDING |
| `Reopening.RepairReopens` | v5/repair.py:71-79 | such a repair is open for an action of any status, and then the capability is called again |
| `Theorems.GraphsStayAcyclic` | v5/work.py:277-307 | every committed dependency graph is acyclic at every point of every run, repairs included |
| `Theorems.GraphsMirrorSteps` | v5/work.py:219-250 | without repair a step's depends_on is its entry in its plan's graph |
| `Theorems.ObservedHasObservation` | v5/repair.py:131-142 | OBSERVED implies an Observation, repairs included |
| `Theorems.ObservationsMatchStatus` | v5/execution.py:216-250 | without repair an action has exactly one Observation when OBSERVED and none otherwise, and is never classified an integrity violation |
| `Theorems.RecoveryNeverFreezes` | v5/recovery.py:50-56 | the INTEGRITY_VIOLATION branch of recovery is unreachable without repair |
| `Classifying.ClassifyMeans` | v5/execution.py:408-431 | each of the five answers, exactly, by status and Observations |
| `Classifying.ClassifiedTruly` | v5/execution.py:408-431 | without repair KNOWN_COMPLETED is said exactly of the actions with an Observation, and a PENDING action was never called |
| `Classifying.CancelledMayHaveBeenCalled` | v5/execution.py:430-431 | begun, called, cancelled: an action classified KNOWN_NOT_STARTED whose capability was called |
| `Ledgers.LedgerReplays` | v5/obligations.py:147-251 | from any point of any run on, until somebody repairs: the later row is what its further events make of the earlier owner and disposition, and the revision counts them |
| `Ledgers.LedgerAgrees` | v5/obligations.py:100-128 | without repair every obligation was created by a step of the run, OPEN and without events, and all its events replay from the owner it was created with to its owner and disposition; a closing event is unique and last; the owner is the registry or an existing task |
| `Theorems.ObligationsPersist` | v5/obligations.py:147-207 | no obligation disappears or loses an event, repairs included; a closed one never changes without |
| `Theorems.ResolvedIsEstablished` | v5/obligations.py:210-276 | without repair a RESOLVED obligation has a claim version citing evidence of an Observation of its origin action, which is OBSERVED |
| `Theorems.UnknownNeverResolves` | v5/execution.py:255-294 | an obligation about an UNKNOWN_OUTCOME action is refused resolution at every later point, whatever verification is offered |
| `Resolution.ResolvableIffObserved` | v5/obligations.py:210-276 | once the origin action has finished, some later point without repair has the obligation RESOLVED exactly when the action is OBSERVED |
| `Resolution.ObservedCanResolve` | tests/test_e2e_file_write.py:212-230 | from an Observation of the origin action six ordinary commits resolve the obligation |
| `Theorems.PointerSound` | v5/work.py:454-546 | active_plan_id is null or a plan of that task, repairs included |
| `Theorems.LeftPlanNeverReturns` | v5/work.py:478-484 | without repair a plan the pointer moved away from is SUPERSEDED, CANCELLED or FAILED and is never pointed at again |
| `Theorems.SupersessionAcyclic` | v5/work.py:502-546 | without repair supersession links between different plans close no cycle |
| `Theorems.TerminalIsForever` | v5/enums.py:121-197 | without repair terminal goals, tasks, steps and actions keep their status for good, a terminal plan can only still become SUPERSEDED |
| `Theorems.RetriesAreCharged` | v5/execution.py:350-396 | without repair the growth of attempts_used is the number of retries that reached the task, and never passes max_attempts |
| `Theorems.RetriesFormForest` | v5/execution.py:376-389 | every retry points at an older attempt with the same step, capability and arguments, repairs included |
| `Theorems.RetryLeavesAttempts` | v5/execution.py:350-396 | a retry adds one unconfirmed PENDING attempt and changes no existing one |
| `Theorems.ClaimVersionsExact` | v5/evidence.py:221-257 | a claim's versions are exactly 1..n and every HIGH version cites evidence with an existing origin Observation, in every run |
| `Theorems.EpistemicRecordsImmutable` | v5/evidence.py:192-244 | claim versions, evidence and Observations never change or disappear, in every run |
| `Revisions.CompareAndSwap` | v5/work.py:692-700 | a call that commits found exactly the revision it staked, of the object itself or of the parent it creates under, and leaves the object it writes one higher |
| `Revisions.NoLostUpdate` | v5/work.py:757-762 | between any two points of a run an object's tracked fields are the same or its revision has grown, repairs included |
| `Revisions.OneWinner` | v5/repair.py:115-124 | two calls staking the same revision, the first of which writes the object, never both commit, however far apart |
| `Revisions.StaleIsTold` | v5/work.py:649-657 | a call whose staked revision is not the object's any more answers STALE_REVISION, a repair STALE_REPAIR, whatever else it asks for, and writes nothing |
| `Acceptance.AcceptanceAddsExactly` | v5/work.py:401-448 | an accepted proposal adds exactly one plan, one step per spec with its dependencies, and per requirement one evidence-free claim, one PENDING verification bound to the step and one binding; nothing else changes |
| `Acceptance.AcceptedGraphWalks` | v5/work.py:394-399 | the committed graph of an accepted proposal is always walkable over the plan's steps in any listing, so the walk never raises on it |
| `Acceptance.ProposalOrderHonours` | v5/live_loop.py:871-872 | the walk over the empty in-memory graph answers proposal order, which honours the committed graph if and only if every dependency points backwards in the proposal |
| `Acceptance.ForwardProposalAccepted` | v5/work.py:365-376 | a proposal whose first step depends on its second is accepted, and its proposal order does not |
| `Completion.PoliciesMean` | v5/work.py:557-583 | over any children and any of them that satisfy: ALL_REQUIRED means there are some and all do, ANY_REQUIRED one does, N_OF_M(n) some n can be picked, CRITERION the evaluator, an unknown rule never |
| `Completion.AllRequiredCompletion` | v5/work.py:586-603 | a task completed under ALL_REQUIRED had an active plan with an uncancelled step, all such steps done, every binding PASS |
| `Transfers.ScanIsExact` | v5/obligations.py:307-332 | in a sound store the two-stage scan finds exactly the OPEN obligations of the task, or of the goal's tasks |
| `Transfers.EndingHandsOver` | v5/work.py:692-708 | complete, cancel and archive move every OPEN obligation below the object to the registry in the same commit, keep it OPEN, touch no other one, leave none behind and answer the exact count |
| `Transfers.TerminalRepairHandsOver` | v5/repair.py:179-186 | so does a repair that leaves a goal or task terminal |
| `Transfers.AbandoningHandsOver` | v5/repair.py:234-254 | so does giving a goal or task up as unrepairable |
| `Transfers.TransitionHandsOverNothing` | v5/work.py:773-812 | a transition that takes a goal or task to a terminal status leaves every OPEN obligation below it where it was |
| `Transfers.CancelledTaskKeepsObligation` | v5/work.py:773-812 | an ACTIVE task with an OPEN obligation, cancelled by transition_object, ends CANCELLED and still owns it |
| `Recovery.RecoveryComplete` | v5/recovery.py:33-65 | recovery leaves no unfrozen EXECUTING action and gives each newly UNKNOWN action exactly one new OPEN obligation, its task's; nothing else changes |
| `Recovery.RecoveryRestartable` | v5/recovery.py:17-65 | a crash after any iterations and a full rerun end with the same statuses and integrity as one uninterrupted recovery, and the same obligations up to fresh ids |
| `Recovery.RecoveredAgree` | v5/recovery.py:33-65 | any two recoveries of the same actions agree up to fresh ids |
| `Refinement.ExecuteIsARun` | v5/capabilities/__init__.py:457-515 | every outcome of execute_action, crashes included, is a stretch of a run without repair with the same effects |
| `Refinement.VerificationIsARun` | v5/evidence.py:305-398 | run_verification is two steps of a worker, or the first and a crash |
| `Refinement.RecoverIsARun` | v5/recovery.py:33-65 | recover over any listing of stuck actions is a run of one worker |

## Left out

- Model providers, prompts, transcripts, redaction, the turn loop of `run_live_slice`, the terminal and conversation layers: text and network plumbing around the operations.
- v5/cognition.py: shape checks in front of operations that validate again.
- Capability bodies, evaluators and v5/paths.py: they rest on the file system; a capability is an arbitrary reply, an evaluator an arbitrary verdict.
- v5/ids.py: a fresh-id supply stands for it. The documented in-process ordering is not what the code does (it increments the new entropy, not the last one), and no modelled operation depends on it.
- JSON encoding, timestamps, audit text, SQL and migrations: maps, sets and abstract values; the audit log, to which rejections may append, is not part of "unchanged".
- v5/sessions.py: a two-state flag.
- Malformed raw values: statuses and policies are typed, so a lower-case or unknown status is not written, and a proposal index is an integer; a repair's field order does not matter.
- Stores.Store.RepairChecks: statuses, policies and ids of a target are typed; of malformed values only a dependency_graph that is no mapping is modelled, and the lower-case spellings the code folds to upper case for its checks are not.
- Stores.Store.RepairRow: the same; a raw value the source would store as it is cannot be written here.
- The order of obligation events of different obligations, and the free-text fields of an obligation (budget, reasons).
- Concurrency below a transaction: the write lock is taken for granted, transactions are atomic steps.
- Stores.Store.LatestConfirmation: the tie between confirmations with the same time is broken arbitrarily, as by the database.
- Stores.Store.DriveStep: runs its transactions back to back with the default confirmation policy; among other callers, and with any policy, it is the driver of `Driving`. The events handed to the host's callback are not modelled, of the answer only which way the step ended.
- Stores.Store.Recover: iterations run back to back; among other callers it is the sweep of `Sweeping.SweepSettles`.
- Atomicity.RefusalChangesNothing: holds by the shape of the transaction functions; what the running code has to prove is in the methods' contracts.
- Recovery.RecoveryRestartable: says nothing of revisions, which a rerun may raise once more for an action it freezes again.
