# dovo run engine: a verified model

`dovo` runs a blueprint: a list of steps and bounded do-until loops. The state of a run is a tree kept in one
database row, and `RunCoordinator` drives it: it picks the first node that is not terminal, applies one transition,
commits the tree by compare-and-swap on a revision, and repeats. Processes may die between any two commits, be resumed,
be paused at a prompt, and compete for the same row. This project models that machine and the parts around it, and
proves what holds of every run of it.

Everything foreign is an oracle. A run is given a sequence of replies, one for each external call: what `run_attempt`
returned, what a prompter answered, or a keyboard interrupt. When the replies are used up the process dies in the call.
Evaluating one `until` expression is an uninterpreted function of the expression, the iteration number and its results.

## How the files fit together

- `state_models`, `failure`, `projection`, `loop_policy`: the tree, the failure rules, the flattened results and the
  loop decisions, as the source's pure modules have them.
- `transitions`, `rows`: the coordinator as a state machine. One proposal is everything it does up to one commit; a tick
  adds the row, other writers and the compare-and-swap. `soundness`: no proposal makes it raise, and a lexicographic
  measure (replies left, work left in the tree, control) goes down.
- `coordinator`, `state_store`, `engine`: the same as the source writes it, classes whose methods update their fields in
  loops. `RunCoordinator.Execute` is proved to end exactly where the machine's run ends, so all that is proved of runs
  is proved of it.
- `interpreter`: what a blueprint means, a direct recursive interpreter without tree search, commits or control state.
  `refinement`, `plan_refinement`: the coordinator computes what the interpreter says. `clashing`: for which blueprints,
  exactly. `engine` states it end to end, a pause and its resumption included.
- `frontier`, `moves`, `guarantees`, `loader`: the shape of every committed tree and what follows from it. `attempts`,
  `policies`: attempt numbers and failure policies over whole runs. `ready_runs`: both for runs whose attempts return what
  step execution returns. `bounds`: how many calls a run can make and how far a loop goes.
- `restart`, `pauses`: crashes and pauses. `reopening`: the one point between two commits where a crash shows.
- `fencing`, `standing`: one coordinator among other writers. `fleet`, `fleet_shape`: many coordinators in any
  interleaving. `races`: two histories in which a losing one spoils a finished run.
- `store_history`: the row and `run.json` over any history. `lock`: the cross-process lock. `step_execution`: the retry
  loop inside one attempt. `snapshot`: the frozen definitions. `config`: configuration trees.

Theorems that speak of the source's own blueprints assume `Resolvable`: looking a definition up by its id finds the same
step, or a loop with the same body. Distinct ids give it (`Refinement.DistinctIdsResolve`).

## What the proofs found

- **Clashing ids.** Definitions are looked up by the first matching id. A blueprint runs as written, for all replies and
  conditions, exactly when every definition's lookup finds the same step or a loop with the same body
  (`Clashing.RunsAsWrittenIff`); for every other one `Clashing.LostRunsDiffer` gives replies under which the runs differ.
- **A crash between two failure commits.** A failed body step is committed before its loop is failed. A process
  restarted on the tree in between does not fail: it runs the next body step, or evaluates the loop's conditions, and
  ends with another tree whatever the world replies. Of all points between two commits this is the only one
  (`Reopening.RestartsAlikeIff`), and it is reached (`Reopening.FailingLoopReached`).
- **A losing coordinator's last word.** A coordinator interrupted at its prompt ends PAUSED, and `_finish_run` writes
  that status over whatever tree the winner left. When the winner failed the run with steps left, both checks of a
  resume accept the tree and the run goes on after the failed step (`Races.PausedOverFailed`); when the winner completed
  it, the run can be resumed no more, as a corrupt one (`Races.PausedOverCompleted`). Trees a coordinator itself commits
  as PAUSED are always fit to resume, whatever others do (`Standing.PausedCommitsResume`).
- **Loading without the lock.** `RunCoordinator._start` loads without the workspace lock. It reports an inconsistent
  projection exactly when the last projection written between its two reads is newer than the row it read:
  `StoreHistory.UnlockedLoad`; `StoreHistory.UnlockedLoadCanFail` shows such a history.
- **Attempt numbers can repeat.** A step whose worktree or definition is gone returns attempts 1 whatever it was asked to
  start at, so a retry after it is numbered 2 once more (`Attempts.NotReadyRepeats`). Over a whole run the numbers of each
  leaf increase exactly when no such result is asked about and retried (`Attempts.NumbersIncreaseIff`), and results of
  steps that are ready never are such (`StepExecution.Run`).
- **Snapshot and catalog can differ.** `_resolve_from_uses` falls back on a document itself when what it uses does not
  resolve; the snapshot refuses. The catalog answers where the snapshot raises exactly when some document along the chain
  does not resolve itself while all before it merge onto it (`Snapshot.FailuresDifferIff`), and that document mixes `uses`
  with an inline type (`Snapshot.FallenOnIsMixed`). Both drop a used step's artifacts, and those of the step that uses it
  (`Snapshot.NearestWins`).
- **An empty `uses` is missed.** A catalog step may have a type and `uses: ""`. The closure takes the empty reference for
  none and is complete without it; the snapshot looks it up and reports it as not captured; the catalog finds nothing
  under it and answers with the step itself (`Snapshot.EmptyUsesIsMissed`). A resolution from the snapshot fails for a
  missing reference exactly when its chain ends at such a document (`Snapshot.MissingIff`), and some step of a blueprint
  does exactly when the closure collected one (`Snapshot.SnapshotMissesIff`).
- **Merging is not associative** exactly when, at some path, a scalar in the middle layer separates two objects and the
  last one lacks something the first would add (`Config.AssociativeIff`); the loader's own order is the one proved
  (`Config.LastLayerWins`).

## Model

| member | source | states |
|---|---|---|
| Engine.Engine.Run | src/dovo/engine/engine.py:47-132 | whatever other writers do, a fresh run fails without a call when its plan cannot be stored or started, and otherwise ends where the machine's run of the plan ends, with that outcome as the row's status; left alone, it makes exactly the interpreter's calls, stores its tree and returns its outcome |
| Engine.RunThenResume | src/dovo/engine/engine.py:78-102 | a run interrupted at a prompt and its resumption by a user who answers are together the interpreter's run given all answers at once, in calls, tree, outcome and final status |
| Engine.Engine.Resume | src/dovo/engine/engine.py:78-102 | whatever other writers do, each refusal is given exactly when its own condition holds of the row they left, and then nothing is changed; otherwise the stored tree is run on to where the machine's run ends and the row gets the outcome as status |
| Engine.Engine.Drive | src/dovo/engine/coordinator.py:119-135 | FAILED without a call exactly when the load, the definitions or the structure check fail; otherwise it ends where the machine's run of the stored tree ends among the same other writers, in outcome, row, calls and replies left |
| Engine.CheckedPlanRuns | src/dovo/engine/state_validation.py:24-38 | a plan that passes the structure check can be run without raising, whatever its ids |
| Engine.Engine.FinishRun | src/dovo/engine/engine.py:179-213 | the row as others left it keeps its tree and takes the given status, at the next revision when its state can be loaded, so that no commit at the old revision is accepted any more |
| Engine.Engine.LoadForResume | src/dovo/engine/loader.py:26-118 | each answer exactly under its own condition on the row, document, snapshot, run.json, tree, worktree and definitions: not found, wrong status, corrupt state, missing snapshot, missing worktree, failed, accepted |
| Engine.Engine.CheckDefinitions | src/dovo/engine/loader.py:97-118 | missing snapshot, failed or corrupt exactly when definitions are missing or invalid, or a loop of the tree does not have its body |
| Engine.AloneRuns | src/dovo/engine/coordinator.py:563-585 | alone, every commit is accepted and what is in memory at the end is what the row holds |
| Coordinator.RunCoordinator.Execute | src/dovo/engine/coordinator.py:125-135 | execute halts, exactly where the machine's whole run from the same state ends |
| Coordinator.RunCoordinator.Drive | src/dovo/engine/coordinator.py:194-207 | the driver loop makes only ticks of the machine until it halts or an interrupt escapes, whose cancellation is the next tick |
| Coordinator.RunCoordinator.RecoverInterrupted | src/dovo/engine/coordinator.py:267-291 | recovery over all leaves, in place, is one tick: every open attempt closed, committed only if there was one |
| Moves.RecoveryCloses | src/dovo/engine/coordinator.py:267-291 | every leaf running an attempt without a result is paused with that attempt failed as interrupted, all other leaves stay, and there is something to commit exactly when there is such a leaf |
| Coordinator.RunCoordinator.NextNode | src/dovo/engine/coordinator.py:293-298 | the position of the first node not terminal |
| Coordinator.RunCoordinator.Dispatch | src/dovo/engine/coordinator.py:300-309 | a node is advanced by the definition its id finds, or fails the run when there is none |
| Coordinator.RunCoordinator.AdvanceLoop | src/dovo/engine/coordinator.py:147-159 | loop decisions are applied one tick at a time until one ends the node |
| Coordinator.RunCoordinator.ApplyLoopDecision | src/dovo/engine/coordinator.py:320-341 | each decision is the machine's tick, and says whether the loop goes on |
| Coordinator.RunCoordinator.AdvanceBodyStep | src/dovo/engine/coordinator.py:343-365 | a body step that fails, or whose commit is refused, fails its loop; a pause or interrupt passes through |
| Coordinator.RunCoordinator.AdvanceSlot | src/dovo/engine/coordinator.py:161-192 | running or re-entering a leaf is at least one tick, with an interrupt leading to the cancellation that will be committed |
| Coordinator.RunCoordinator.RunOpenAttempt | src/dovo/engine/coordinator.py:178-192 | the open attempt is run with its number, its iteration and, numbered, the name and last result of every leaf that has ended, in tree order; then it is settled |
| Coordinator.RunCoordinator.BeginIteration | src/dovo/engine/coordinator.py:311-318 | the last iteration and its loop become running and are committed, nothing else |
| Coordinator.RunCoordinator.CompleteIteration | src/dovo/engine/coordinator.py:367-381 | until_passed is whether all conditions hold on the iteration's results, committed with the iteration completed |
| Coordinator.RunCoordinator.RepeatIteration | src/dovo/engine/coordinator.py:383-389 | an untouched iteration with the next number is appended, opened and committed |
| Coordinator.RunCoordinator.FinishLoop | src/dovo/engine/coordinator.py:391-409 | the loop's terminal state, its iteration failed only if not yet terminal, and the transition by outcome of the commit |
| Coordinator.RunCoordinator.ResolveCeiling | src/dovo/engine/coordinator.py:411-442 | a prompted ceiling fails without anyone to ask, else grants three iterations, continues, aborts, cancels or dies by reply |
| Coordinator.RunCoordinator.BeginAttempt | src/dovo/engine/coordinator.py:444-448 | an open attempt is appended to one leaf and committed before it executes |
| Coordinator.RunCoordinator.SettleAttempt | src/dovo/engine/coordinator.py:450-467 | a result is recorded, and committed as success or handed to the failure gate |
| Coordinator.RunCoordinator.ResolveFailedLeaf | src/dovo/engine/coordinator.py:469-481 | the gate: the recorded result is continued, aborted or asked about as the policy says, and without one the slot fails |
| Coordinator.RunCoordinator.PromptFailedLeaf | src/dovo/engine/coordinator.py:483-504 | the leaf is committed PAUSED before its prompt is opened, a refused commit fails the slot unasked, and with nobody to ask the step is aborted |
| Coordinator.RunCoordinator.AnswerPrompt | src/dovo/engine/coordinator.py:495-504 | an answer is one tick: retry, continue, abort, or PAUSED when interrupted |
| Coordinator.RunCoordinator.PersistPaused | src/dovo/engine/coordinator.py:506-509 | only the leaf's state changes, committed with the row PAUSED |
| Coordinator.RunCoordinator.ApplyAction | src/dovo/engine/coordinator.py:511-525 | retry numbers its attempt after the last, continue and abort store the leaf, each with its row status |
| Coordinator.RunCoordinator.FinishLeaf | src/dovo/engine/coordinator.py:527-561 | a leaf's terminal state and last result, committed |
| Coordinator.RunCoordinator.AbortLeaf | src/dovo/engine/coordinator.py:538-547 | the leaf is failed with its error recorded, and the slot fails even if the commit does |
| Coordinator.RunCoordinator.Cancel | src/dovo/engine/coordinator.py:209-216 | the node in flight is stored cancelled and the run ends CANCELLED |
| Coordinator.RunCoordinator.Commit | src/dovo/engine/coordinator.py:563-585 | the tree is saved at revision + 1, or the revision stays and an error is recorded |
| StateStore.RunStateStore.Save | src/dovo/engine/state_store.py:137-164 | written exactly when the row others left still holds the expected revision; run.json then shows the row's revision, tree, status and results unless the disk refuses, and a consistent store stays consistent |
| StateStore.RunStateStore.Initialize | src/dovo/engine/state_store.py:77-93 | the revision 0 tree, from revision 0 to revision 0 |
| StateStore.RunStateStore.Load | src/dovo/engine/state_store.py:95-135 | the row's tree, or each failure exactly under its condition: no row, no state, unreadable state, missing snapshot files, newer projection; run.json rewritten to show the row exactly when it is absent or stale |
| StateStore.RunStateStore.SyncProjection | src/dovo/engine/state_store.py:184-190 | run.json shows the row's revision, tree, status and ended leaves unless the disk refuses |
| Rows.IntrusionsCover | src/dovo/core/db/repositories/runs.py:82-165 | what other writers are taken to do covers every row they can leave: gone, under any status, or at any later revision with any tree and status |
| StateStore.RunStateStore.UpdateStatus | src/dovo/core/db/repositories/runs.py:82-121 | the status alone changes, when there is a row |
| PlanRefinement.CoordinatorRefinesInterpreter | src/dovo/engine/coordinator.py:147-207 | for every blueprint and all replies the run of a fresh plan is the interpreter's: same calls with same inputs, same tree, same outcome, error recorded exactly when it did not complete |
| PlanRefinement.LoopRefines | src/dovo/engine/coordinator.py:320-442 | a loop driven from its tree is a bounded do-until with its ceiling policy |
| PlanRefinement.BodyRefines | src/dovo/engine/coordinator.py:343-365 | an iteration runs its body steps in order until one stops the run |
| Refinement.StepRefines | src/dovo/engine/coordinator.py:161-192 | a step's attempts, gates, prompts and retries are those of the interpreter |
| Clashing.RunsAsWrittenIff | src/dovo/engine/coordinator.py:300-309 | a blueprint runs as the interpreter says, for all replies and conditions, exactly when every definition looked up by its id finds the same step or a loop with the same body |
| Clashing.LostRunsDiffer | src/dovo/engine/coordinator.py:300-309 | for every other blueprint the plan of which can be run, replies under which coordinator and interpreter part |
| Refinement.DistinctIdsResolve | src/dovo/engine/coordinator.py:302-302 | distinct ids make every lookup find its own definition |
| Soundness.ProposeSound | src/dovo/engine/coordinator.py:161-192 | from any tree the coordinator can run, every next state, committed or refused, can be run on: it never raises |
| Soundness.ProposeLowers | src/dovo/engine/coordinator.py:194-207 | every step lowers the measure, so the driver's loops end |
| Soundness.ReachesEnd | src/dovo/engine/coordinator.py:125-135 | runs are deterministic: every halted state reached is the end of the run |
| Solo.AloneTicks | src/dovo/engine/coordinator.py:563-585 | after every commit of a run left alone the row holds the tree in memory |
| Solo.ProposeKeepsUncommitted | src/dovo/engine/coordinator.py:450-525 | what is not committed does not change the tree |
| Projection.CollectIterationResults | src/dovo/engine/projection.py:40-47 | an id is there exactly when a body leaf with it has completed, was ignored or has failed with its last result recorded, and its value is the last such leaf's last result |
| Projection.OutcomesAre | src/dovo/engine/projection.py:23-68 | the flattened results of any tree are one entry for each leaf that has completed, was ignored or has failed with its last result recorded, in tree order: its name and that result |
| Frontier.ProposeKeeps | src/dovo/engine/coordinator.py:293-561 | the frontier invariant: everything before it done, everything after it untouched, and what may stand at it for each state of the coordinator |
| Frontier.StepsKeep | src/dovo/engine/state_models.py:28-76 | the invariant over whole runs, the frontier only moving on |
| Frontier.SlotAtFrontier | src/dovo/engine/coordinator.py:300-309 | a step is only ever run at the frontier and with its own definition; no reachable tree misses one |
| Frontier.RecoveredTree | src/dovo/engine/coordinator.py:267-291 | recovery touches only the frontier and keeps it |
| Frontier.PlanLive | src/dovo/engine/state_store.py:29-52 | a fresh plan is a tree a run can go on from |
| Guarantees.OneActiveLeaf | src/dovo/engine/coordinator.py:444-561 | at most one leaf of a committed tree, earlier iterations included, is running or paused |
| Guarantees.LeafRecorded | src/dovo/engine/state_models.py:28-51 | running means the last attempt is open, pending that there is none, any other state but cancelled that the last one has a result; in a tree a run goes on from none has failed |
| Guarantees.LoopsWellFormed | src/dovo/engine/coordinator.py:311-389 | iterations numbered 1..n within the ceiling, all but the last closed unmet, until_passed true exactly when all conditions hold on that iteration's results |
| Standing.OutcomesSound | src/dovo/engine/coordinator.py:194-216 | whatever other writers do, COMPLETED only with every node and leaf settled and no error, PAUSED only at the open prompt of a tree fit to resume, both with the row at the coordinator's own revision and tree; anything else reports an error |
| Standing.PausedCommitsResume | src/dovo/engine/coordinator.py:483-509 | every tree a coordinator itself commits as PAUSED passes both checks of a resume, whatever others do |
| Standing.CommittedResumesIff | src/dovo/engine/loader.py:67-118 | a committed tree passes both checks exactly when something is left to run |
| Guarantees.RunsAppend | src/dovo/engine/projection.py:50-68 | over a run the flattened results only grow at the end, and what every attempt was given stays their beginning |
| Guarantees.FrontierAppends | src/dovo/engine/coordinator.py:178-190 | the name and last result of a leaf that has ended are appended after all earlier ones, and nothing for another leaf |
| Guarantees.NextExecuted | src/dovo/engine/coordinator.py:178-191 | an attempt is given exactly the names and last results of all leaves that have ended before it, numbered from 1 in tree order |
| Guarantees.LiveEndings | src/dovo/engine/projection.py:33-68 | in a tree a run goes on from these are exactly the leaves that completed or were ignored |
| Loader.ValidatePausedLeaves | src/dovo/engine/loader.py:67-80 | nothing left exactly when every node is terminal, and otherwise refused exactly when some paused leaf, wherever in the tree, has no attempt or no result of its last one |
| Loader.ValidateLoopStructure | src/dovo/engine/state_validation.py:24-38 | the structure errors, loop by loop: exactly one kind for a loop without a definition, and one for each iteration whose leaves are not the body's steps |
| Loader.StructureErrorsIff | src/dovo/engine/state_validation.py:10-38 | no error exactly when every loop is known and every iteration has its body's ids in order |
| Loader.LoopTableIs | src/dovo/engine/state_validation.py:24-38 | loops are known by the last definition with their id |
| Loader.CommittedIsStructured | src/dovo/engine/state_validation.py:24-38 | every committed tree passes for its own blueprint |
| Races.PausedOverFailed | src/dovo/engine/engine.py:179-205 | a history of two coordinators whose row ends PAUSED over a failed tree that both checks of a resume accept and that would be run on after the failed step |
| Races.PausedOverCompleted | src/dovo/engine/engine.py:179-205 | a history of two coordinators whose row ends PAUSED over a completed tree, which no resume accepts |
| Bounds.FreshRunBounded | src/dovo/engine/coordinator.py:147-207 | run_attempt is called at most once per step and max_iterations times per body step, plus one per retry and three bodies per grant; nothing is added without someone to ask |
| Bounds.CallsBounded | src/dovo/engine/loop_policy.py:51-61 | the bound from any tree a run can go on from |
| Bounds.GrantsAreAnswered | src/dovo/engine/coordinator.py:411-442 | a loop's ceiling grows by three for each grant its prompt is answered with over the run, and by nothing else |
| Bounds.IterationsBounded | src/dovo/engine/loop_policy.py:51-61 | a loop of a fresh run never has more iterations than max_iterations plus three per grant answered so far, its first one apart |
| Bounds.OneAttemptPerSlot | src/dovo/engine/coordinator.py:444-448 | a non-interactive run attempts no leaf twice |
| Restart.CrashesRefine | src/dovo/engine/coordinator.py:267-291 | any number of crashes between commits: the last process ends with the tree, outcome and, in all, the executions of one crash-free run whose attempts open at a crash returned the interrupted result |
| Restart.CrashContinues | src/dovo/engine/coordinator.py:444-481 | one crash, at any point before the run failed |
| Restart.StepsSame | src/dovo/engine/coordinator.py:161-192 | a run reads its replies in order and nothing of its past calls |
| Restart.PauseIsTransparent | src/dovo/engine/coordinator.py:483-509 | interrupting a prompt changes nothing, and resuming with the same answers makes the same calls and ends the same as answering at once |
| Pauses.PausedRunResumes | src/dovo/engine/coordinator.py:483-504 | from any tree a run can go on from: a run whose last reply interrupts a prompt, and the run resumed from its tree, are together the run given all the answers at once |
| Reopening.RestartsAlikeIff | src/dovo/engine/coordinator.py:343-365 | restarting a process between two commits gives the tree it would have ended with, its open attempt interrupted, exactly when it was not about to fail a loop for a failed body step |
| Reopening.FailedBodyRestarts | src/dovo/engine/coordinator.py:343-365 | at that point the restarted run and the live one end with different trees, whatever both are replied |
| Reopening.FailingLoopReached | src/dovo/engine/coordinator.py:359-364 | a run whose first body step fails under abort stands at that point |
| Fencing.RefusedIsFenced | src/dovo/engine/coordinator.py:511-585 | after a refused commit no call, no successful commit, and the run ends FAILED or CANCELLED with an error, on every path |
| Fencing.NeverBehind | src/dovo/core/db/repositories/runs.py:123-165 | revisions only grow, whatever other writers do |
| Fleet.OneExecutorPerAttempt | src/dovo/engine/coordinator.py:161-192 | for any number of coordinators in any interleaving no attempt is passed to run_attempt twice, and only by the one that durably committed it as open |
| Fleet.CallsAreRecorded | src/dovo/engine/coordinator.py:178-192 | the calls this speaks of are all there are: as many are recorded of each coordinator as it has made |
| Fleet.RunsOwn | src/dovo/engine/coordinator.py:444-448 | when a coordinator is about to run an attempt it has already committed it as open, and no one has run it |
| Fleet.CommitsBuildOnTheLast | src/dovo/engine/state_store.py:137-182 | no lost update: a commit is accepted only from a coordinator holding the last committed tree and stores its own next step |
| Fleet.HistoriesOnlyGrow | src/dovo/engine/state_store.py:137-164 | no leaf and no attempt ever disappears |
| FleetShape.TreesKeepShape | src/dovo/engine/coordinator.py:563-585 | over any history in which each coordinator loads a tree the run can go on from, the last committed tree has a frontier and every coordinator up to date with the row stands at it |
| Fleet.CommittedTreesAreOpen | src/dovo/engine/coordinator.py:444-467 | every committed tree meets the premise: a running leaf has an open attempt |
| StoreHistory.LoadsAgree | src/dovo/engine/state_store.py:95-164 | over any history run.json is never newer than the row and shows a tree and a status the row had at its revision; a load under the lock never reports an inconsistency, returns the last committed tree and leaves run.json showing the row, status included |
| StoreHistory.UnlockedLoad | src/dovo/engine/state_store.py:122-132 | a load without the lock fails exactly when the last projection written between its two reads is newer than the row it read, which takes a commit in between; otherwise it returns the tree that was last when it read, and rewrites a projection that does not show its row |
| StoreHistory.UnlockedLoadCanFail | src/dovo/engine/coordinator.py:218-224 | a history in which it does |
| Lock.LockProtocol | src/dovo/common/lock.py:243-303 | under every interleaving at most one process is in the lock, its depth is the sum of its objects' depths, every win is undone exactly once, and the lock is free once all is released or timed out |
| Lock.AcquireThenRelease | src/dovo/common/lock.py:243-303 | a thread that finds the lock free takes it, and releasing it leaves everything as it was, with one more win and one more undoing |
| Lock.EventKeeps | src/dovo/common/lock.py:224-303 | every atomic step of acquire, poll, register, release and process death keeps the protocol's invariant |
| Lock.ReleaseFits | src/dovo/common/lock.py:275-303 | releases in any order lower the depth by one, and only the one that reaches zero gives up the descriptor |
| Lock.PollLock | src/dovo/common/lock.py:224-241 | the first try that wins is taken, unless an earlier check plus the 0.2 s interval was already past the timeout, which is at least 0.1 s |
| Lock.Registries.Acquire | src/dovo/common/lock.py:243-273 | at any depth it shares the process's descriptor, otherwise it polls; a win raises the process's depth and the object's by one, a timeout changes nothing, and other objects keep what they hold |
| Lock.Registries.Scoped | src/dovo/common/lock.py:305-316 | entering and leaving the lock leaves everything as before, the file lock won and given back exactly when the process did not hold it already |
| Lock.Registries.Release | src/dovo/common/lock.py:275-303 | releasing what is not locked does nothing; otherwise the depth goes down by one, and the descriptor is given up exactly when it reaches zero, with no object left holding |
| StepExecution.RunAttempts | src/dovo/engine/executors/step_executor.py:207-241 | attempts are initial + dispatches - 1, every dispatch but the last failed, and failure uses up the budget |
| StepExecution.Run | src/dovo/engine/executors/step_executor.py:157-241 | a ready step is dispatched until a dispatch completes or, under action retry, max_retries are used up, and otherwise once; it returns the last dispatch's output, diagnostic, number and exit code, ignored with exit code 0 instead of failed exactly when action, or on_max_retries after a retry action, is continue; a result reports fewer attempts than asked exactly when the step was not ready and was asked for a later one |
| Policies.PoliciesHold | src/dovo/engine/failure.py:12-52 | over any run whose ignored results are those of step execution, in every tree: no leaf has failed whose action, or on_max_retries after a retry action, is continue, and none was ignored unless it is, or it is prompt_user and the leaf was continued |
| Policies.PoliciesOutliveProcesses | src/dovo/engine/failure.py:12-52 | the same of what any number of crashed or paused processes leave |
| Policies.LeavesEndExactly | src/dovo/engine/coordinator.py:469-561 | a leaf becomes ignored exactly when its action, or on_max_retries after a retry action, or the answer to its prompt, is continue, and failed exactly when they abort it or nobody can be asked |
| Attempts.NumbersIncreaseIff | src/dovo/engine/coordinator.py:161-192 | over a whole run from any tree it can go on from, the numbers each leaf is run with strictly increase exactly when no failed result that understates its number is asked about and retried |
| Attempts.NumbersAcrossCrashes | src/dovo/engine/coordinator.py:267-291 | the same of all calls of any number of crashed or paused processes together |
| Attempts.HonestNumbersIncrease | src/dovo/engine/coordinator.py:444-467 | processes whose results never understate their numbers run each leaf with increasing ones, however often they die or pause |
| Attempts.NotReadyRepeats | src/dovo/engine/executors/step_executor.py:159-165 | a run in which a step that is no longer ready makes the numbers 1, 2, 2 |
| ReadyRuns.FreshRuns | src/dovo/engine/executors/step_executor.py:157-241 | a fresh run whose every attempt is answered by what step execution can return, ready or not, obeys its policies in every tree; when all steps it runs are ready, each leaf is run with increasing numbers |
| Snapshot.CollectUsesRefs | src/dovo/engine/writer.py:25-35 | exactly the references of all steps and loop body steps, once each, in the order of their first use |
| Snapshot.ResolveUsesChain | src/dovo/engine/writer.py:54-78 | terminates on cycles, collects exactly the reachable references, and gives None exactly when one is missing |
| Snapshot.SnapshotMeansCatalog | src/dovo/engine/writer.py:172-224 | every step of the blueprint resolves from what the closure collected to what the unchanged catalog gives, type and command from the end of its chain, where a run shorthand gives its text; or raises: for a missing reference exactly when its chain ends at an empty `uses`, for a cycle only where there is one |
| Snapshot.SnapshotAgrees | src/dovo/engine/writer.py:172-186 | whenever the snapshot resolves a step the catalog resolves it the same |
| Snapshot.FailuresDifferIff | src/dovo/core/catalog/services/resolve_step.py:118-171 | the catalog answers where the snapshot raises exactly when some document along the chain does not resolve itself while all before it merge onto it |
| Snapshot.FallenOnIsMixed | src/dovo/core/catalog/services/resolve_step.py:170-171 | the document fallen back on mixes uses with an inline type |
| Snapshot.MissingIff | src/dovo/engine/writer.py:172-186 | over what the closure keeps a reference is missing exactly when the chain ends at a document whose `uses` is empty |
| Snapshot.SnapshotMissesIff | src/dovo/engine/writer.py:46-78 | some step of a blueprint misses a reference the closure should have collected exactly when a collected document has an empty `uses` |
| Snapshot.EmptyUsesIsMissed | src/dovo/engine/writer.py:46-51 | a catalog the schema accepts whose closure is complete, where the catalog answers and the snapshot misses a reference |
| Snapshot.NeverCyclic | src/dovo/engine/writer.py:172-186 | and no cycle is found where there is none |
| Snapshot.MixedDocumentFallsBack | src/dovo/core/catalog/services/resolve_step.py:170-171 | a catalog in which that happens |
| Snapshot.NearestWins | src/dovo/core/catalog/services/resolve_step.py:64-89 | type and command come from the end of the chain, each other field from the nearest document that sets it, environments are layered, artifacts dropped |
| Snapshot.RunExpands | src/dovo/core/catalog/services/resolve_step.py:137-150 | a run shorthand resolves, unless its text is empty, to a command step that runs the text, with its id, environment, name, description, timeout, assertions and failure specification, and nothing else |
| Snapshot.ChainDecides | src/dovo/engine/writer.py:172-186 | what the snapshot resolves has type and command from the end of its chain in the catalog, a run shorthand giving its text, each other field from the nearest document that sets it, and all environments |
| Snapshot.ResolvesIff | src/dovo/core/catalog/services/resolve_step.py:64-89 | a chain resolves from the snapshot exactly when it ends at a document without `uses` whose type has what it needs, a command, prompt or script path, at every document before |
| Config.Document.MergeMissingKeys | src/dovo/core/config/generator.py:92-107 | the document becomes the layered merge over the defaults, and reported are, once each, exactly the paths where the defaults have a value, the document has none, and all shorter parts are objects of it |
| Config.RepairedHasAll | src/dovo/core/config/generator.py:92-107 | a second run inserts nothing |
| Config.DeepMergeLoop | src/dovo/core/config/services/hierarchical_loader.py:56-64 | the loop computes the merge in any order of keys |
| Config.MergeGet | src/dovo/core/config/services/hierarchical_loader.py:56-64 | what a merge holds at every path: override, base, merged objects, or nothing where a scalar blocks the path |
| Config.LastLayerWins | src/dovo/core/config/services/hierarchical_loader.py:103-114 | a scalar comes from the last layer that says anything about its path |
| Config.AssociativeIff | src/dovo/core/config/services/hierarchical_loader.py:56-64 | three layers merge alike in both orders exactly when, wherever a scalar of the middle layer separates two objects, the last one already has all the first would add |
| Config.Document.SetNestedValue | src/dovo/core/config/mutate.py:80-111 | refused exactly for a blank string and for a dot at an end or next to another; for the dot path of any keys the value is there afterwards exactly when no shorter part of the path holds a scalar, and any error leaves the document alone, although the walk inserts objects as it goes |
| Config.Document.UnsetNestedValue | src/dovo/core/config/mutate.py:114-154 | refused for the same strings; for the dot path of any keys, removal exactly when the value is there, a collision exactly when a shorter part holds a scalar, otherwise unchanged |
| Config.BlockedIff | src/dovo/core/config/mutate.py:101-109 | a collision is exactly a scalar at some shorter part of the path |
| Config.PutLaws | src/dovo/core/config/mutate.py:80-111 | get after set, set after set, set of what is there |
| Config.PutElsewhere | src/dovo/core/config/mutate.py:80-111 | unrelated paths keep their values |
| Config.RemoveLaws | src/dovo/core/config/mutate.py:114-154 | nothing is left at the path, unrelated paths stay, and setting the value back undoes it |
| Config.SplitJoin | src/dovo/core/config/mutate.py:94-98 | no path is lost in splitting: joining the segments of any string gives it back |
| Config.JoinSplit | src/dovo/core/config/mutate.py:94-98 | a dot path of dot-free segments splits into those segments |

## Left out

- Restart.CrashesRefine: one prompter and terminal setting for all processes of a run, because with another one a prompt may be answered differently by design.
- Engine.Engine.Resume: takes an accepted tree to be one the coordinator can run without raising, as every commit guarantees; a tree edited by hand to hold a loop without iterations, or a running leaf without attempts, would raise.
- Engine.Engine.Drive: the same of the tree it loads; other writers act while a lock is waited for, and what they do between the two reads of its load is the subject of StoreHistory; setting up the worktree, agent settings and applying changes at the end are left out.
- Engine.Engine.Run: inputs, the snapshot's creation and the insertion of the row come before it.
- Config.Document.SetNestedValue: nested objects are values of the tree they are in, so aliasing between two places of one document is not captured.
- Snapshot.SnapshotMeansCatalog: documents are parsed and valid, references are catalog keys, nothing is found under the empty one, and a cyclic chain, which never returns in the source, counts as raised for that reason.
- FleetShape.TreesKeepShape: coordinators that load a failed tree are excluded, because the row's status is to keep them away and Races shows what happens when it does not.
- Lock.LockProtocol: which process id is in the file, notifications, and cleanup by signal and atexit.
- Nodes shared by reference between a local variable and the run's tree: a leaf is addressed by its place and replaced in the tree; no two places share a node.
- KeyboardInterrupt outside run_attempt and the prompters: it is a reply of those calls only.
- Warnings, the wording of errors and timestamps: only whether an error was recorded is kept, and where a result's message came from.
- The totals and context passed to run_attempt besides the step, its place, iteration number, attempt number and earlier results.
- Running a step's process, its output files, assertions and environment; a dispatch is its outcome.
- The grammar of until expressions and the parsing of YAML and JSON documents.
- Worktrees, artifacts, agents, inputs, observers and the command line.
- The Windows branch of the lock.
