# Verified model of the assessment platform's cores

This project models the parts of the platform in which many small steps have to add
up to a promise, and proves the promise for every input, every run or every reachable
state:

* **Plan execution** (`Plans`, `Planning`, `Jobs`, `DrainSpec`, `Rounds`,
  `Orchestration`, `Execution`). A plan is a dependency graph checked for cycles; it is
  dispatched as leased jobs and drained round by round, serially or on a worker pool,
  with retries, policy denials, and a gate that can stop the drain between jobs.
  `DrainSpec.Eval` says recursively what a plan should come to, without rounds, leases
  or workers; the drain is proved to compute it, whatever the interleaving of the pool
  and however often it is paused and resumed by another executor.
* **The reasoning loop** (`LoopSpec`, `ReasoningLoop`). One loop is a transition system
  over its state, its executed steps and its audit ledger; the classes are proved to
  perform it over shared repositories, one loop at a time. The proposer, the schema,
  policy and permit gates, the observations, the approval check and the clock are
  arbitrary inputs of each call.
* **The signed audit chain** (`Audit`, `AuditChains`). Recording, rotation, redaction,
  export, verification and restart from the store. The hash is any injective function
  with bare digests other than the genesis hash; the signer verifies what it signed.
* **Attack-chain matching** (`ChainTemplates`, `ChainEngines`, `ChainBridges`). The
  greedy matcher, the engine that binds links to findings under ids that are new on
  every call, and the bridge that gives pending links stable identities.
* **Two histories** (`RemoteModel`, `Assessments`). The governed model gateway with its
  rate and token bounds, and the assessment lifecycle with its control signals.

Code that works on fields is modelled by classes whose methods are proved against pure
functions of the state (`Jobs.Apply`, `LoopSpec.Next`, `AuditChains.Apply`,
`Assessments.Apply`, ...); the lemmas then speak about all histories of those functions.
The step runner is a fixed but arbitrary function of (step key, how often the step was
run); a gate is an arbitrary sequence of answers; the clock is constant inside a drain,
as in `run_to_completion`.

## Where the code and its documentation differ

Each of these is proved, as an exact condition or a concrete input.

* `run_to_completion` is documented to return "completed" when everything finished. It
  also does when the round cap is hit first (`Execution.CapLeavesWork`). "completed" means
  drained for every behaviour of the steps exactly if the cap is three rounds per step of
  the longest dependency chain (`Execution.CompletedMeansDrained`); below that, what is
  left is exactly the state of the capped round (`Execution.RunSession`). Planner plans
  need nine rounds, one more when resumed, of the hundred they get
  (`Planning.GenerateAndRun`).
* A denial by the budget gate is documented to be terminal. The loop becomes
  BUDGET_EXHAUSTED exactly when the budget is exhausted without the refused tokens
  (`LoopSpec.BudgetDenialPhase`, `LoopSpec.BudgetDenialGoesOn`). With the default budget
  the gate never denies anything (`LoopSpec.DefaultGateIsSilent`).
* The wall-clock limit is documented as hard. No step consumes wall seconds, so unless
  the clock is set back it never bites (`LoopSpec.WallNeverUsed`).
* A comment says an unavailable backend leaves the policy streak alone; it resets it, as
  does every step that is not a policy rejection (`LoopSpec.StreakReset`; over whole
  lives the streak in `LoopSpec.LedgerAlwaysAgrees`).
* The step limit is documented as hard. The interfaces accept any integer, and a limit of
  zero or less is exceeded by the first step (`LoopSpec.StepLimitHolds`,
  `LoopSpec.NoStepMeansOne`).
* Creating a loop again under its id makes state and ledger disagree, unless nothing
  had happened (`LoopSpec.RecreationAgrees`). The ledger results are about loops created
  once.
* `resume_loop` ends the loop when the pause budget is spent, whether or not it is
  paused and whether or not the resume is approved (`LoopSpec.ResumeKills`). Since the
  pause budget is compared with `>=`, at most `max_pauses - 1` resumes succeed.
* A rebuilt audit chain equals the running one after a call exactly if the call was
  recorded and did not forge a redaction (`AuditChains.CallSurvivesRestart`). A refused
  call before a recorded one makes a restart mint an event id twice
  (`AuditChains.IdsSurviveRestart`).
* Rotation reads the tail before it takes the lock, and redaction sets its keys and
  records them under two locks. When that is harmless is given exactly
  (`AuditChains.LateRotationNamesItsTail`, `AuditChains.SplitRedactionAgrees`).
* A second redaction of an event replaces the first, so keys masked before come back in
  the clear (`AuditChains.SecondRedactionUnmasks`). A redacted export passes chain
  verification only if nothing was masked (`AuditChains.RedactedExportVerifies`).
* The model gateway's daily budget is never renewed (`RemoteModel.SpentForGood`), a call
  that exactly uses it up is alerted as degraded yet sent to the remote backend
  (`RemoteModel.DegradeAlertSentRemotely`), and a budget of zero makes every call fail
  (`RemoteModel.ZeroBudgetServesNothing`). Requests that the remote backend fails on count
  for neither bound: what is sent in a minute stays within the limit plus the failures in
  it (`RemoteModel.SendBound`), and within the limit alone, over every history, only if
  nothing can be sent at all (`RemoteModel.SendLimitHolds`).
* With two templates of one id the bridge reads the second one's chain with the first
  one's links (`ChainBridges.DuplicateIdTakesTheFirst`). When the result is right all the same
  is given exactly (`ChainBridges.DuplicateIdStillRight`).
* `mark_running` is documented as QUEUED to RUNNING and `resume` as PAUSED to RUNNING. Both
  only consult the transition table, so either also takes the other's status: a run marked
  as running leaves its pause, and a queued one can be resumed (`Assessments.EffectExactly`).
* The control gate reads the row and, if a signal is pending, writes it back without the
  signal. Calls in between can be undone, a cancellation among them, and a stop they ask
  for can be swallowed; when neither happens is given exactly
  (`Assessments.TwoStepGateIsHarmless`), and so is when a pause reaches a gate read in one
  step (`Assessments.StopReachesGate`). A cancellation read in one step is never lost
  (`Assessments.CancelIsDelivered`).
* `run_step`, `emergency_stop` and the pause service hold no lock while they read a loop
  and save it. A step that saves after other calls came in leaves the loop as it should
  only if those calls changed nothing; in particular it overwrites a stop
  (`LoopSpec.LateStepIsHarmless`).

## Model

| member | source | states |
|---|---|---|
| Plans.Create | src/secopent/domain/assessments/models.py:60-89 | Creation succeeds exactly for a positive version, unique keys, closed dependencies and no dependency cycle; each error is raised exactly in its case and in the order of the checks; acceptance yields a rank decreasing along dependencies |
| Plans.CycleVisitor.Visit | src/secopent/domain/assessments/models.py:75-84 | The recursive visitor terminates, keeps the explored walk and the finished order consistent with its two sets, and its failure exhibits a real cycle |
| Plans.StratifiedHasNoCycle | src/secopent/domain/assessments/models.py:75-87 | A graph with a rank has no cyclic walk of any length |
| Plans.DependencyOrderStratifies | src/secopent/domain/assessments/models.py:80-87 | The order in which the visitor finishes keys gives such a rank |
| Plans.SetSizeCountsDistinct | src/secopent/domain/assessments/models.py:65-67 | Comparing the number of keys with the size of their set decides uniqueness |
| Planning.Planner.Generate | src/secopent/application/planner.py:47-86 | One step per required class of each listed asset type and per logic case, in tiers; refused only for its version or exactly when two sources name the same step |
| Planning.Planner.CollectItems | src/secopent/application/planner.py:88-125 | Nothing required is left out, added or reordered |
| Planning.KeysIdentify | src/secopent/application/planner.py:102-118 | Equal step keys come from the same asset type and class or the same logic class and short signature |
| Planning.StepsWaitByRisk | src/secopent/application/planner.py:59-73 | A step depends on exactly the passive and low steps if it is active, on these and the active ones if it is intrusive or destructive, and on none otherwise; logic cases are active |
| Planning.StepsNameTheirSource | src/secopent/application/planner.py:95-125 | Key, runner and parameters of each step are those of its required class or logic case |
| Planning.PlannerPlansDrain | src/secopent/application/planner.py:57-86 | Planner plans have chains of at most three steps and, whatever their steps do, are decided after nine rounds |
| Planning.GenerateAndRun | src/secopent/application/execution.py:661-668 | A planner plan drained by any number of executors under any gates ends as its recursive evaluation whenever the last drain is not stopped and its cap is ten rounds or more |
| Jobs.MemoryJobStore.AddJob | src/secopent/application/jobs.py:54-61 | Idempotent on the key: the first stored job with it is returned and nothing changes; otherwise the job is stored |
| Jobs.MemoryJobStore.SetReady | src/secopent/application/jobs.py:71-72 | Only the named job changes, to READY; an unknown id is an error without effect |
| Jobs.MemoryJobStore.TakeLease | src/secopent/application/jobs.py:74-95 | Granted exactly to a READY job or one whose lease has run out; counts an attempt |
| Jobs.MemoryJobStore.RenewLease | src/secopent/application/jobs.py:97-103 | Granted exactly to the recorded owner |
| Jobs.MemoryJobStore.CompleteJob | src/secopent/application/jobs.py:105-106 | The job succeeds with its digest; no other job changes |
| Jobs.MemoryJobStore.FailJob | src/secopent/application/jobs.py:108-114 | Policy failures are denied, all others failed |
| Jobs.MemoryJobStore.RequeueJob | src/secopent/application/jobs.py:116-124 | The job is handed back without lease or failure, its attempts kept |
| Jobs.MemoryJobStore.SkipJob | src/secopent/application/jobs.py:126-130 | The job is skipped and its lease dropped |
| Jobs.MemoryJobStore.Leaseable | src/secopent/application/jobs.py:132-153 | The leaseable jobs, loop jobs first, in insertion order |
| Jobs.LeaseableListsEachOnce | src/secopent/application/jobs.py:132-153 | Every leaseable job is listed once and nothing else is |
| Jobs.LeaseableInOrder | src/secopent/application/jobs.py:132-153 | Only READY jobs and those whose lease has run out are listed; loop jobs come first, and either kind in the order stored |
| Jobs.LeaseExclusion | src/secopent/application/jobs.py:71-130 | Over any history of calls by any owners: between two leases of a job that was not handed back, the first lease and all its renewals had run out |
| Jobs.LeasesFollowTenure | src/secopent/application/jobs.py:74-103 | Over any history in which a job is not settled or handed back it can be leased by anyone exactly from the moment a ttl has passed since it was last leased or renewed, and renewed by exactly its last holder |
| Jobs.AttemptCountsLeases | src/secopent/application/jobs.py:74-95 | Over any history, attempts grow by exactly the leases won |
| Jobs.LeasesArePaidFor | src/secopent/application/jobs.py:74-130 | Every lease was a takeover of one that ran out or follows its own hand-back |
| Jobs.AttemptsWithinLimit | src/secopent/application/orchestrator.py:166-190 | In every history in which executions requeue only when their leased copy stood below the limit, each at most once, and only blocked jobs are marked ready, a job is attempted at most its limit plus once per takeover |
| Rounds.OutcomeIsDriven | src/secopent/application/orchestrator.py:174-179 | The retry decision requeues only as such a history allows, whatever has happened to the job since it was leased |
| Rounds.ExecutionIsDriven | src/secopent/application/orchestrator.py:166-179 | The store calls of one execution are such a history and leave the recorded job |
| Jobs.ClosedStaysClosed | src/secopent/application/jobs.py:105-130 | A finished job stays finished in every history that does not hand it back |
| DrainSpec.RoundAdvances | src/secopent/application/orchestrator.py:113-146 | A full round takes the exact table of round n to that of round n + 1 |
| DrainSpec.DrainedExactly | src/secopent/application/orchestrator.py:148-164 | The table after n rounds is the recursive evaluation exactly if n rounds decided every step that runs, exactly if nothing is ready |
| DrainSpec.UndecidedMeansReady | src/secopent/application/orchestrator.py:155-163 | No deadlock: while a step that can run is undecided some step is ready |
| DrainSpec.DoneIsFinal | src/secopent/application/orchestrator.py:162-164 | Rounds after the first empty one would change nothing |
| DrainSpec.FinishBound | src/secopent/application/orchestrator.py:148-179 | A step is decided within three rounds per step of its longest dependency chain |
| DrainSpec.EnoughRounds | src/secopent/application/orchestrator.py:148-179 | r rounds decide a plan whatever its steps do if and only if they are three per step of its longest chain |
| DrainSpec.SlowFinish | src/secopent/application/orchestrator.py:174-179 | With steps that time out until their last attempt every step takes exactly that long |
| DrainSpec.RoundGetsAhead | src/secopent/application/orchestrator.py:113-164 | A full round leads on by one round wherever the drain had been stopped before |
| DrainSpec.RoundKeepsDecided | src/secopent/application/orchestrator.py:113-190 | No round changes a step that has succeeded, failed or been denied |
| DrainSpec.AttemptDecides | src/secopent/application/orchestrator.py:166-179 | One more attempt of an undecided step leads to the next undecided attempt or to the first decisive one |
| DrainSpec.AttemptsKeepTrack | src/secopent/application/orchestrator.py:113-146 | Running any of the ready steps, in particular any prefix before a stop, keeps every step consistent with the evaluation |
| DrainSpec.UnblockKeepsTrack | src/secopent/application/orchestrator.py:181-190 | So does resolving dependencies, which leaves nothing to unblock |
| DrainSpec.DrainedIsEval | src/secopent/application/orchestrator.py:148-190 | Confluence: on track, nothing ready and nothing to unblock leaves only one possible table |
| DrainSpec.FinalIsEval | src/secopent/domain/jobs/models.py:45-52 | The evaluation is the only table in which every step is final: never attempted if a dependency did not succeed; otherwise attempted until it succeeds, is out of scope or not approved (denied), fails on its input or on parsing (failed), or was unavailable or timed out three times (failed) |
| DrainSpec.EvalIsFinal | src/secopent/application/orchestrator.py:166-190 | And in it every step is final, whatever its outcomes |
| DrainSpec.TrackedStepIsSafe | src/secopent/application/orchestrator.py:166-190 | A step attempted or about to be has only succeeded dependencies, at most three attempts, and behind it only failures for want of a worker or time |
| DrainSpec.DispatchIsRoundZero | src/secopent/application/orchestrator.py:87-101 | Dispatch leaves the table of round zero |
| Rounds.PoolStart | src/secopent/application/orchestrator.py:166-167 | In any state of a pool a waiting task finds its job as listed and can lease it |
| Rounds.PoolFinish | src/secopent/application/orchestrator.py:168-179 | In any state of a pool a running task still holds its lease and is run once per attempt |
| Rounds.PoolDone | src/secopent/application/orchestrator.py:136-144 | When all tasks have finished the table is that of running them one after another |
| Rounds.PoolIsSafe | src/secopent/application/orchestrator.py:136-190 | In every state of a pool, whenever a target waits, is leased or has run, all its dependencies have succeeded |
| Rounds.StoppedRound | src/secopent/application/orchestrator.py:103-146 | A round stopped by the gate runs a prefix of its targets, leaves a ready job, and strands nothing although dependencies were not resolved |
| Rounds.FullRound | src/secopent/application/orchestrator.py:113-146 | A full round of the job table is a round of the specification, empty exactly when nothing was ready |
| Rounds.TargetsAreReady | src/secopent/application/orchestrator.py:125-129 | The targets of a round are the plan's ready steps, each once |
| Rounds.DispatchAgain | src/secopent/application/orchestrator.py:87-101 | Dispatching the plan again changes nothing, whatever has happened to its jobs |
| Rounds.DispatchFresh | src/secopent/application/orchestrator.py:87-101 | Dispatch into an empty store stores exactly the plan's jobs, untouched |
| Orchestration.Orchestrator.Execute | src/secopent/application/orchestrator.py:166-179 | A refused lease has no effect; otherwise the step is run once and the job recorded failure by failure: denied if out of scope or not approved, failed on bad input or parsing, ready again if a worker was missing or it timed out below its attempt limit, failed at it |
| Orchestration.Orchestrator.RunSerial | src/secopent/application/orchestrator.py:131-135 | Exactly the targets before the gate's first stop are run, results in order |
| Orchestration.Orchestrator.RunPool | src/secopent/application/orchestrator.py:136-144 | The same contract as the serial path for every interleaving of submission, start and finish on any number of workers |
| Orchestration.Orchestrator.ResolveDependencies | src/secopent/application/orchestrator.py:181-190 | Exactly the blocked jobs all of whose dependencies succeeded become ready |
| Orchestration.Orchestrator.ExecuteReady | src/secopent/application/orchestrator.py:113-146 | Table, call counts and ordered results of a round do not depend on the workers; a stop leaves the other targets and the dependencies as they were |
| Orchestration.Orchestrator.DrainRound | src/secopent/application/orchestrator.py:113-146 | One round of a drain, stopped or not, keeps every step on track and changes and reruns nothing that was decided |
| Orchestration.Orchestrator.RunToCompletion | src/secopent/application/orchestrator.py:148-164 | Under any gate: keeps every job on track, changes and reruns nothing decided, reports exactly the first answer of the gate that stops it, with work left, ends before its cap only when nothing is ready; unstopped it performs exactly the cap's rounds, and no round is non-empty once the plan must be decided |
| Orchestration.Orchestrator.Dispatch | src/secopent/application/orchestrator.py:87-101 | The store is the result of adding one job per step, in step order |
| Execution.RunSession | src/secopent/application/execution.py:761-768 | One executor over a new or resumed store under any gate: an unstopped drain that ends before its cap, or whose cap is enough, leaves the recursive evaluation; on a new store the table is exactly that of the capped round; what was decided before is not changed or run again |
| Execution.RunSessions | src/secopent/application/execution.py:717-768 | Pausing is transparent: any stopped and resumed drains end in the same table as an uninterrupted one once nothing is ready, which an unstopped last drain with enough rounds reaches; successes and runner calls of decided steps survive every session |
| Execution.EvaluatedIsFinal | src/secopent/application/orchestrator.py:148-190 | The job table is the evaluation if and only if each job is as its own attempts and its dependencies demand |
| Execution.RoundsBounded | src/secopent/application/orchestrator.py:148-164 | Under any gate a fresh drain of chains of at most D steps has at most 3 D non-empty rounds |
| Execution.ResumedRoundsBounded | src/secopent/application/orchestrator.py:148-164 | A drain resumed from any point has at most 3 D + 1 |
| Execution.CompletedMeansDrained | src/secopent/application/orchestrator.py:148-164 | "completed" means drained for every behaviour of the steps exactly if the cap is three rounds per step of the longest chain |
| Execution.CapIsEnough | src/secopent/application/orchestrator.py:148-164 | A cap of 3 D rounds never truncates such a plan |
| Execution.CapLeavesWork | src/secopent/application/orchestrator.py:148-164 | The chain of n always succeeding steps is an acceptable plan that still has ready work after any r < n rounds |
| Execution.HandleCancelled | src/secopent/application/execution.py:373-377 | Exactly the unfinished jobs become skipped |
| Execution.CancelledExactly | src/secopent/application/execution.py:373-377 | PENDING, BLOCKED, READY and LEASED jobs lose their lease and are skipped, every other job is as it was |
| Execution.CancelledStaysDown | src/secopent/application/execution.py:364-377 | Afterwards nothing is leaseable at any time, no dependency resolution revives a job, and succeeded jobs are untouched |
| LoopSpec.LedgerAlwaysAgrees | src/secopent/application/reasoning_loop/orchestrator.py:234-616 | In every reachable state steps, tokens, streaks, resumes, executed steps and catalog sets are what the ledger and the recorded steps add up to |
| LoopSpec.TerminationsAnnounced | src/secopent/application/reasoning_loop/orchestrator.py:359-379 | Over any life the announced terminations are exactly the changes into a terminal phase |
| LoopSpec.StepPassesGates | src/secopent/application/reasoning_loop/orchestrator.py:256-330 | A loop that may step executes a proposal if and only if schema, policy and permit pass and the budget, a hundred tokens added, is below all limits or ungated; otherwise one entry names the first gate that refused. Resting loops stay as they are, ended ones refuse |
| LoopSpec.OnlyAdmittedStepsAreExecuted | src/secopent/application/reasoning_loop/orchestrator.py:256-379 | Over every life the recorded steps, and the executions in the ledger, are exactly those of proposals that passed every gate, in order |
| LoopSpec.PhaseAlwaysAgrees | src/secopent/domain/reasoning_loop/policies.py:34-55 | In every reachable state the phase is what the last ledger entry says; a loop runs on only below all limits, with fewer than three policy refusals and fewer than five quiet steps last; each other phase has its reason, and three refusals in a row always end the loop |
| LoopSpec.HumansPauseAndResume | src/secopent/application/reasoning_loop/pause_control.py:139-247 | Over every life the ledger shows exactly the pauses that humans asked for of live loops, and exactly the resumes that humans asked for, that were approved and that the pause budget still allowed |
| LoopSpec.RefusedControlChangesNothing | src/secopent/application/reasoning_loop/pause_control.py:139-247 | Every other pause or resume leaves the loop alone, but for the resume that spends the pause budget |
| LoopSpec.ClocksAreThoseOfCalls | src/secopent/application/reasoning_loop/pause_control.py:160-247 | A loop is held since its last pause unless a resume was granted after it, so no pause is credited twice; what it was created with never changes |
| LoopSpec.CallsAreNotedAs | src/secopent/application/reasoning_loop/orchestrator.py:382-481 | Pauses, resumes and stops are noted in the name of whoever asked for them, everything a step comes to in that of the loop |
| LoopSpec.StepLimitHolds | src/secopent/domain/reasoning_loop/models.py:52-97 | Over every life steps never exceed the limit and reach it only in BUDGET_EXHAUSTED or EMERGENCY_STOPPED, if and only if the limit is at least one |
| LoopSpec.NoStepMeansOne | src/secopent/interfaces/api/routers/loops.py:266-280 | With a limit of zero or less a loop takes one step all the same and is then dead |
| LoopSpec.TokenLimitHolds | src/secopent/application/reasoning_loop/budget_gate.py:41-68 | Over every life tokens stay below the limit with the gate, below it plus one step without, if and only if the limit is at least one |
| LoopSpec.LimitsHold | src/secopent/application/reasoning_loop/pause_control.py:204-209 | The limits never change, and resumes stay below the pause limit over every life |
| LoopSpec.StepsOverLife | src/secopent/application/reasoning_loop/feedback.py:30-34 | Over every life the steps used are the steps taken, so a loop takes at most its limit |
| LoopSpec.DeadForGood | src/secopent/application/reasoning_loop/pause_control.py:54-71 | A dead loop only ever moves to EMERGENCY_STOPPED, which is absorbing; its steps and budget never change |
| LoopSpec.LateStepIsHarmless | src/secopent/application/reasoning_loop/orchestrator.py:234-379 | A step with any calls on its loop between reading and saving leaves the loop as a step after them would if and only if they changed nothing |
| LoopSpec.WholeLifeBound | src/secopent/domain/reasoning_loop/policies.py:34-55 | A loop without signals takes at most five steps plus one per allowed resume in its whole life, seven by default |
| LoopSpec.WholeLifeBoundIsReached | src/secopent/domain/reasoning_loop/policies.py:34-55 | Some life takes all seven |
| LoopSpec.RecreationAgrees | src/secopent/application/reasoning_loop/orchestrator.py:195-231 | Creating a loop again keeps ledger and state in agreement exactly if no step was taken and no resume granted |
| LoopSpec.BudgetDenialPhase | src/secopent/application/reasoning_loop/budget_gate.py:54-66 | When a budget denial ends the loop, exactly |
| LoopSpec.BudgetDenialGoesOn | src/secopent/application/reasoning_loop/orchestrator.py:268-284 | A new loop that is denied for want of tokens and goes on running |
| LoopSpec.DefaultGateIsSilent | src/secopent/application/reasoning_loop/budget_gate.py:41-68 | With the default budget a loop that may step is never denied by the budget gate |
| LoopSpec.ResumeKills | src/secopent/application/reasoning_loop/orchestrator.py:469-481 | Exactly when a resume ends the loop |
| LoopSpec.WallNeverUsed | src/secopent/application/reasoning_loop/pause_control.py:74-91 | Unless the clock goes back no loop ever uses a wall second |
| ReasoningLoop.LoopsAreIndependent | src/secopent/application/reasoning_loop/in_memory_state.py:18-42 | In any interleaving of calls on a shared store, creations of loops among them, each loop becomes what its own calls make of it |
| ReasoningLoop.CreatedLoopRuns | src/secopent/application/reasoning_loop/orchestrator.py:195-231 | A loop created once in a store that began empty lives the life that the results on single loops speak of, whatever else is created and called |
| ReasoningLoop.ReasoningLoopOrchestrator.CreateLoop | src/secopent/application/reasoning_loop/orchestrator.py:195-231 | The loop is new, with the default budget, and announced; nothing else changes |
| ReasoningLoop.ReasoningLoopOrchestrator.RunStep | src/secopent/application/reasoning_loop/orchestrator.py:234-379 | Refused in terminal phases, a no-op in idle ones, otherwise settled by the first gate that denies or by execution; a step is returned and recorded exactly if the loop may step and the proposal passes every gate |
| ReasoningLoop.ReasoningLoopOrchestrator.RecordGateRejected | src/secopent/application/reasoning_loop/orchestrator.py:566-616 | A denial costs a step and no tokens, counts for the policy streak only from the policy gate, and is announced if it ends the loop |
| ReasoningLoop.ReasoningLoopOrchestrator.RecordBackendUnavailable | src/secopent/application/reasoning_loop/orchestrator.py:519-564 | No proposal costs a step and no tokens |
| ReasoningLoop.ReasoningLoopOrchestrator.EmergencyStop | src/secopent/application/reasoning_loop/orchestrator.py:382-425 | Stops a loop in any phase and announces it once |
| ReasoningLoop.ReasoningLoopOrchestrator.ResumeLoop | src/secopent/application/reasoning_loop/orchestrator.py:428-481 | As the pause service, except that a spent pause budget blocks the loop and announces it |
| ReasoningLoop.PauseControlService.Pause | src/secopent/application/reasoning_loop/pause_control.py:139-176 | Human only, idempotent, refused for dead loops |
| ReasoningLoop.PauseControlService.Resume | src/secopent/application/reasoning_loop/pause_control.py:178-247 | Human only and approved, within the pause budget; credits the pause and counts the resume |
| Audit.VerifyChain | src/secopent/domain/audit/models.py:58-84 | Accepts exactly the lists in which every event carries its own hash and its predecessor's |
| Audit.TailDeterminesHistory | src/secopent/domain/audit/models.py:58-84 | Tamper evidence: two verified lists of any lengths with the same tail hash are identical |
| Audit.CutNeedsTheTail | src/secopent/domain/audit/models.py:58-84 | A proper prefix still verifies and differs in its tail |
| Audit.AlteredVerifies | src/secopent/domain/audit/models.py:66-82 | With hashes kept, altered bodies verify exactly if none was altered |
| AuditChains.EveryChainVerifies | src/secopent/application/audit_chain.py:75-199 | Every chain built by any calls, refused ones among them, verifies and is only appended to; refused calls are exactly the gaps in the numbering |
| AuditChains.RefusedExactly | src/secopent/domain/audit/models.py:87-90 | A record is refused exactly if actor, action, resource type or id is empty or a payload key reads, in any ASCII case, as password, secret, token, authorization, api_key or cookie; rotations and redactions exactly if actor or event id is empty |
| AuditChains.StoredEventsAreClean | src/secopent/domain/audit/models.py:35-40 | Whatever is called on a new chain, no stored event lacks one of these fields or has such a key, and a call is refused exactly if its event would |
| AuditChains.EventsSayTheirCalls | src/secopent/application/audit_chain.py:75-199 | The i-th event says what the call it is numbered by asked to be recorded, in the order of the calls |
| AuditChains.BegunChainVerifies | src/secopent/application/audit_chain.py:41-73 | So any calls on a new chain leave a chain that verifies, running or rebuilt from its store |
| AuditChains.LoadedSealed | src/secopent/application/audit_chain.py:60-73 | A chain rebuilt from a store that verifies verifies |
| AuditChains.IdsAreUnique | src/secopent/application/audit_chain.py:99-106 | A running chain never reuses an event id |
| AuditChains.CallSurvivesRestart | src/secopent/application/audit_chain.py:60-73 | A rebuilt chain equals the running one after a call exactly if the call was recorded and forged no redaction |
| AuditChains.RestartRefines | src/secopent/application/audit_chain.py:60-73 | So over any history of recorded calls the rebuilt chain has the same events, tail, counter and redactions |
| AuditChains.RestartRefinesFromEmpty | src/secopent/application/audit_chain.py:41-73 | In particular for every history of recorded calls on a new chain |
| AuditChains.IdsSurviveRestart | src/secopent/application/audit_chain.py:60-106 | Across a restart ids stay unique, whatever is called afterwards, if and only if no refused call came before the last recorded one |
| AuditChains.RotationPinsThePast | src/secopent/application/audit_chain.py:158-175 | Any verified list that contains a rotation has the chain's whole past before it |
| AuditChains.LateRotationNamesItsTail | src/secopent/application/audit_chain.py:167-175 | A rotation whose tail was read before other calls names the event before it if and only if nothing was recorded in between |
| AuditChains.ExportOverHistory | src/secopent/application/audit_chain.py:177-219 | After any calls a redacted export keeps every event, id and hash and masks exactly the keys of the event's last redaction |
| AuditChains.SplitRedactionAgrees | src/secopent/application/audit_chain.py:189-199 | With other calls between setting keys and recording them, running and rebuilt chain mask the event alike if and only if no redaction of it with other keys came last in between |
| AuditChains.SecondRedactionUnmasks | src/secopent/application/audit_chain.py:177-219 | A second redaction with another key shows the first key's value again |
| AuditChains.RedactedExportVerifies | src/secopent/application/audit_chain.py:201-219 | A redacted export verifies exactly if masking changed nothing |
| AuditChains.NoncesOverHistory | src/secopent/application/audit_chain.py:121-144 | After any calls a permit nonce is among the chain's exactly if some recorded call carried it |
| AuditChains.AuditChain.constructor | src/secopent/application/audit_chain.py:41-58 | Empty without a store, otherwise rebuilt from it |
| AuditChains.AuditChain.LoadFromStore | src/secopent/application/audit_chain.py:60-73 | Tail, counter and redactions are re-derived from the rows |
| AuditChains.AuditChain.RecordEvent | src/secopent/application/audit_chain.py:75-119 | A signed event linked to the tail, also stored; or, for a missing field or a payload key that names a secret and only then, a refusal that has used up a number |
| AuditChains.AuditChain.RotateLog | src/secopent/application/audit_chain.py:158-175 | The recorded rotation names the prior tail |
| AuditChains.AuditChain.RedactPii | src/secopent/application/audit_chain.py:177-199 | The keys come into force and the redaction is recorded |
| AuditChains.AuditChain.Verify | src/secopent/application/audit_chain.py:146-156 | True exactly if the chain links and every signature verify |
| AuditChains.AuditChain.Export | src/secopent/application/audit_chain.py:201-219 | The events in order, masked or not |
| ChainTemplates.ContainsIsSubstring | src/secopent/domain/findings/chain_templates.py:56-69 | A pattern is contained in a text exactly if it occurs at some position |
| ChainTemplates.MatchTemplate | src/secopent/domain/findings/chain_templates.py:45-69 | True exactly if findings can be chosen in strictly increasing order, each sharing a CWE with its link and having the link's pattern somewhere in its asset |
| ChainTemplates.GreedyIsComplete | src/secopent/domain/findings/chain_templates.py:56-69 | Greedy binding binds every link if and only if an embedding exists |
| ChainTemplates.BindingsAreSound | src/secopent/application/chain_engine.py:123-140 | Bound findings fit their links in strictly increasing order |
| ChainTemplates.BoundToTheEarliest | src/secopent/application/chain_engine.py:123-140 | Each link is bound to the earliest such finding after those bound before it, and unbound only if there is none |
| ChainTemplates.SomethingBound | src/secopent/application/chain_engine.py:141-152 | Something is bound exactly if some link fits some finding |
| ChainEngines.ChainEngine.MatchTemplate | src/secopent/application/chain_engine.py:123-175 | None exactly if no link and finding share a CWE and pattern; CONFIRMED exactly if all links can be laid over the findings, HYPOTHESIS exactly if they cannot and the first link fits none, else PARTIALLY_VERIFIED |
| ChainEngines.ConfirmedLinksAreBacked | src/secopent/application/chain_engine.py:44-53 | Confirmed links are backed by validated, fitting findings in order |
| ChainEngines.SeverityIsHighestBound | src/secopent/application/chain_engine.py:161-186 | With distinct finding ids a chain's severity is the highest among the findings it is bound to |
| ChainEngines.ChainEngine.Composite | src/secopent/domain/findings/attack_chain.py:75-86 | The highest of the severities, INFO of none |
| ChainEngines.ChainEngine.HypothesizeFromFindings | src/secopent/application/chain_engine.py:44-53 | One chain per template that fits something, in template order, over the validated findings |
| ChainEngines.ChainEngine.TasksFor | src/secopent/application/chain_engine.py:188-207 | The unconfirmed links paired with the first template of the chain's id; refused if lengths differ |
| ChainEngines.ChainEngine.PendingVerificationTasks | src/secopent/application/chain_engine.py:55-61 | The tasks of all chains in order, or the first refusal |
| ChainBridges.ChainBridge.Sync | src/secopent/application/reasoning_loop/chain_bridge.py:163-199 | With distinct template ids exactly the expected hypotheses, a function of templates, findings and progress alone, so repeated syncs agree; progress is never changed and first records are kept |
| ChainBridges.ExpectedExactly | src/secopent/application/reasoning_loop/chain_bridge.py:174-199 | Exactly the unbound, unprogressed links come back; a progressed id never does |
| ChainBridges.ChainsGiveExpected | src/secopent/application/reasoning_loop/chain_bridge.py:174-192 | With distinct ids the shared task iterator pairs each link with its own template's |
| ChainBridges.DuplicateIdStillRight | src/secopent/application/chain_engine.py:188-207 | If digests tell links apart, the chain of a template whose id an earlier one has gives exactly its own pending hypotheses if and only if at each unbound link the two templates describe the same hypothesis or both descriptions have progressed |
| ChainBridges.ChainBridge.MarkPendingProgress | src/secopent/application/reasoning_loop/chain_bridge.py:222-229 | Exactly a recorded hypothesis progresses, for good |
| ChainBridges.HypothesesStore.Record | src/secopent/application/reasoning_loop/chain_bridge.py:117-133 | The first record of an id is kept |
| ChainBridges.ChainBridge.ConcludedChains | src/secopent/application/reasoning_loop/chain_bridge.py:201-215 | Exactly the template ids of the last sync's confirmed chains, in order |
| ChainBridges.ConcludedAreMatched | src/secopent/application/reasoning_loop/chain_bridge.py:201-215 | These are the templates whose links can all be laid over the validated findings |
| RemoteModel.RemoteModelGateway.Call | src/secopent/application/remote_model.py:102-194 | A refused call sends and changes nothing; every other call is sent to the local or remote backend as classification, limits and preference demand, and is counted and audited exactly if the backend answers |
| RemoteModel.RateBound | src/secopent/application/remote_model.py:176-179 | No closed minute of any history holds more remote-served calls than the limit, even if the clock jumps |
| RemoteModel.SendBound | src/secopent/application/remote_model.py:129-179 | What is sent to the remote backend in a closed minute of any history is within the limit plus the requests it failed on in that minute |
| RemoteModel.SendLimitHolds | src/secopent/application/remote_model.py:129-179 | The limit holds of everything sent, over every minute of every history, if and only if the settings let nothing be sent remotely: otherwise failing requests go on without end |
| RemoteModel.TokenBound | src/secopent/application/remote_model.py:129-136 | All remote-served tokens of a gateway's life stay within the budget |
| RemoteModel.CharacterBound | src/secopent/application/remote_model.py:78-79 | So the remote backend serves at most four characters per token of the budget and three more a request |
| RemoteModel.SpentForGood | src/secopent/application/remote_model.py:99-159 | Once the budget is used up nothing is sent to the remote backend any more |
| RemoteModel.OnlyGovernedTextIsSent | src/secopent/application/remote_model.py:111-127 | In every history each request that reached a backend was itself neither secret nor restricted, sent the redactor's output if sensitive and the prompt otherwise, within the cap, and went to the remote backend only when asked to |
| RemoteModel.RefusedExactly | src/secopent/application/remote_model.py:110-142 | A request is refused for the first of: secret, restricted, too large after redaction, no budget to divide by; otherwise it is sent |
| RemoteModel.RoutedExactly | src/secopent/application/remote_model.py:131-147 | In every history a request goes to the remote backend exactly if wanted, available, below the limit of calls served since a minute before and within the budget; degraded exactly if wanted in vain; warned from four fifths of the budget, alerted as degraded from all of it |
| RemoteModel.AuditAddsUp | src/secopent/application/remote_model.py:158-194 | With an audit sink the records of any history add up to the tokens used, in all and remotely, one record per counted call |
| RemoteModel.DegradeAlertSentRemotely | src/secopent/application/remote_model.py:130-146 | A request sent to the remote backend carries the degrade alert exactly if it uses up the budget exactly |
| RemoteModel.ZeroBudgetServesNothing | src/secopent/application/remote_model.py:139-140 | With a budget of zero no request ever reaches a backend |
| Assessments.ApprovalPinsThePlan | src/secopent/application/assessments.py:51-128 | In every reachable world the active plan is the assessment's own accepted plan, and once approved the approval names that plan's digest |
| Assessments.PlanNeverChangesAfterApproval | src/secopent/application/assessments.py:51-128 | From APPROVED on, plan, approval and both references are the same forever |
| Assessments.ApprovalsWereGiven | src/secopent/application/assessments.py:71-128 | In every reachable world each approval was stored by an approve call of a human or under a grant that allowed it, in the name of that human or grant, with that call's risks, capabilities and scope, the assessment's mode and the digest of its plan at that time |
| Assessments.OnlyThePermittedDecide | src/secopent/application/assessments.py:155-161 | An approval or start by anyone else, and a rejection by anyone but a human, is refused and changes nothing |
| Assessments.RunsWerePermitted | src/secopent/application/assessments.py:71-225 | No assessment is queued, running, paused or over unless a permitted caller approved it and a permitted caller started it afterwards |
| Assessments.EffectExactly | src/secopent/domain/assessments/transitions.py:23-66 | For each call, exactly at which statuses and by whom it takes effect |
| Assessments.CallFollowsTable | src/secopent/domain/assessments/transitions.py:23-66 | Every call by anyone moves an assessment's status only along the table |
| Assessments.TerminalSurvives | src/secopent/domain/assessments/transitions.py:54-57 | CANCELLED and the other terminal statuses survive every later call |
| Assessments.StopsWereAskedFor | src/secopent/application/execution.py:338-350 | The gate stops the executor at most as often as a pause or cancellation took effect |
| Assessments.CancelIsDelivered | src/secopent/application/execution.py:338-350 | Whatever else is called, the first gate reading after a cancellation answers "cancelled" |
| Assessments.StopReachesGate | src/secopent/application/execution.py:338-350 | Once a stop is pending, and whatever is called before the gate is next read, that reading stops the executor if and only if the last control call to take effect was not a resume |
| Assessments.TwoStepGateIsHarmless | src/secopent/application/execution.py:338-350 | A gate with any calls between its read and its write undoes none of them and swallows no stop if and only if no signal was pending at the read, or the status is unchanged and no stop asked for in between is still unanswered; for a live run the status is unchanged exactly if no call ended it and the moves between RUNNING and PAUSED are even in number |
| Assessments.TwoStepsWithoutCalls | src/secopent/application/execution.py:338-350 | With no call in between the two steps are one reading |
| Assessments.OnlyStatusAndSignalChange | src/secopent/application/assessments.py:194-314 | From APPROVED on only status and signal of an assessment ever change |
| Assessments.AssessmentService.AttachPlan | src/secopent/application/assessments.py:51-69 | Only a draft or unapproved assessment gets a plan, and only one that plan creation accepts |
| Assessments.AssessmentService.Approve | src/secopent/application/assessments.py:71-128 | Only a human or a grant that allows it approves, and only an awaiting plan; anyone else is refused without effect; the approval carries that plan's digest |
| Assessments.AssessmentService.Reject | src/secopent/application/assessments.py:130-153 | Human only, with a reason, only while awaiting approval |
| Assessments.AssessmentService.Start | src/secopent/application/assessments.py:194-225 | Only an approved assessment with plan and approval is queued, and only by a human or under a grant that allows it |
| Assessments.AssessmentService.MarkRunning | src/secopent/application/assessments.py:227-235 | Refused unless queued or paused; nothing else changes |
| Assessments.AssessmentService.Complete | src/secopent/application/assessments.py:237-245 | Refused unless running |
| Assessments.AssessmentService.Fail | src/secopent/application/assessments.py:247-255 | Refused unless running |
| Assessments.AssessmentService.Pause | src/secopent/application/assessments.py:283-292 | Status and signal change together, or neither does |
| Assessments.AssessmentService.Resume | src/secopent/application/assessments.py:294-303 | Status and signal change together, or neither does |
| Assessments.AssessmentService.Cancel | src/secopent/application/assessments.py:305-314 | Status and signal change together, or neither does |
| Assessments.AssessmentService.ReadGate | src/secopent/application/execution.py:338-350 | Answers the pending signal and consumes it; status, plan and approval are untouched |

## Left out

- Docker and subprocess execution, adapters, parsers, egress rules, health checks, logging, the HTTP, MCP and command-line interfaces: foreign calls without a property of their own.
- SQL repositories, migrations, sessions and the outbox worker: repositories are maps and sequences, and each repository call or lock-protected method is one atomic step. A service method of the lifecycle and a gate reading are taken as one step too; what a gate in two steps does is shown.
- AuditChains.AuditChain.RotateLog: one step, where the source reads the tail before it takes the lock; the lemma on late rotations says what that changes.
- AuditChains.AuditChain.RedactPii: one step, where the source releases the lock between setting the keys and recording; the lemma on split redactions says what that changes.
- `JobService` only forwards to the store and raises for unknown ids; the store's methods carry those errors here.
- Several orchestrators draining one store at a time, a lease that goes stale while its step runs, and runner exceptions other than a step failure: the drain is modelled for one orchestrator at a time with a constant clock and a store in which no lease is outstanding. Takeovers are covered by the store histories.
- Jobs.AttemptsWithinLimit: finding a job blocked and marking it ready is one step; two orchestrators resolving at once could mark a job that one of them has already run.
- The canonical JSON digests, SHA-256, Ed25519, uuids and random tokens: arbitrary functions, injective or fresh where a result says so.
- Case folding beyond ASCII in the secret-key check, and Unicode white space in a rejection reason.
- The reasons, context hashes and other free texts inside audit payloads of the loop, the loop context, and the oracle behind a request_oracle step; its outcome is part of a step's arbitrary observations.
- LoopSpec.DeadForGood: each call on a loop is one step; no lock makes it one, and a step that saves a state read before a stop overwrites the stop, as the lemma on late steps says. Stops, pauses and resumes in two pieces are not modelled.
- Loops are identified by any text; the eight-digit format of ids is not checked. The API's own loop creation with another budget is covered because the results hold for every unspent positive budget.
- Notes on pending links, the critical-asset step of the composite severity (never taken), chains built from proposals, `next_priorities`, `valid_hypothesis` and the curated templates: one branch each.
- Assessments.AssessmentService.Approve: the grant check is an input that allows or denies; scope lookup and grant matching are not modelled.
- Assessments.AssessmentService.Start: likewise for the grant check.
- Crash recovery at startup, which maps interrupted assessments to FAILED outside the transition table.
- RemoteModel.RemoteModelGateway.Call: the alert ratio is computed over the reals.
- DrainSpec.FinishBound: uses the default of three attempts per job, the only value dispatch ever gives a job.
