# Workflow engine: a verified model

A durable workflow engine keeps one append-only history per instance, rebuilds
the instance by replaying that history, lets planners turn a replayed instance
into an atomic transition, commits transitions through a fenced store, and runs
external effects from leased work items. This project models those parts in
Dafny and proves what holds between them.

| module | models |
|---|---|
| `Basics`, `Definitions`, `Backoff`, `Events` | names, bounded integers, definitions and their validation, the registry, retry delays, history records and their field rules |
| `Replay`, `ReplayMachine` | replay as a function, and as the mutable instance that is proved to compute it |
| `ReplayFrames`, `AttemptProtocol`, `ReplayTheorems` | what one event changes; the attempt protocol as machine and grammar; laws of every accepted history |
| `Transitions`, `Planners` | due work, leases, atomic plans and the planners that build them |
| `ReplayMeaning`, `HistoryLaw` | which histories there are, read off the events, and what they say; replay agrees in both |
| `Acceptance`, `PlannerSoundness`, `OperatorSoundness`, `PlannerCompleteness` | planner guards against replay guards, exactly, in both directions |
| `HandOff` | a plan's work item starts the attempt the plan admitted |
| `Counterexamples`, `LateCounterexamples`, `DecisionCounterexamples` | concrete runs on which an accepted plan breaks its history |
| `Orchestration`, `OrchestrationTheorems`, `DecisionExactness`, `OrchestrationRuns` | the ordered orchestrator, single decisions, and whole runs |
| `Store`, `StoreInvariants`, `StoreRuns`, `StoreTheorems`, `StoreMachine`, `ClaimFairness`, `Claimability` | the tables and every operation as one atomic step, invariants over all runs, and the statements that compute the steps |
| `MultiWriter` | many writers with stale views on one store |
| `Inspection` | paged reads of a history that keeps growing |
| `ProcessorLaw`, `Processing`, `Invocations`, `InvocationRuns` | the leased processors with lost replies and interference, and the concurrent system of all of them |
| `Worker`, `LeaseHandling` | bounded admission and fair order; renewing and finishing one lease while others act |

Conventions. Time is an integer, the zero time is 0 and stands for "absent".
Digests are taken to be injective and are represented by what was digested, so
a transition's fingerprint is its content and a processor-derived identity is
the pair it hashes. Encoded documents are represented by what they decode to,
with their encoded length. Each store operation is one atomic step; whether a
commit's reply is lost, what a handler answers and what others do in between are
arbitrary choices.

## Where the code promises less than its documentation

The documentation calls committed history authoritative. Several planners accept
instances on which replay refuses their events, and the store does not replay
before committing, so such a commit leaves a history that can no longer be read
back. For every planner, `MultiWriter.CallerGuard` is the exact condition and
`MultiWriter.CommittedReplaysExactly` ties it to the stored history;
`MultiWriter.UnguardedBreaksForever` says that nothing later repairs it. These
runs show inputs, each an accepted plan on a history that replays:

- a retry planned while the instance is paused, which the activity processor
  does when an operator pauses during a failing attempt
  (`Counterexamples.PausedRetryBreaksHistory`);
- an activity outcome planned after the instance was terminated
  (`Counterexamples.TerminatedOutcomeBreaksHistory`), and a manual resolution
  planned after that (`LateCounterexamples.LateResolutionBreaksHistory`);
- a creation outcome planned after a migration removed the child step
  (`LateCounterexamples.MigratedCreationBreaksHistory`);
- a timer plan dated before the last event
  (`Counterexamples.EarlyTimerBreaksHistory`), and so dated timer, parallel,
  race and terminal decisions (`DecisionCounterexamples.EarlyTimerDecision`,
  `EarlyParallelDecision`, `EarlyRaceDecision`, `EarlyTerminalDecision`).

Compensation outcomes, operator retries, timer firings, signals and approvals
have exact guards too, without a run of their own here.

Child dispatch metadata with long but legal names does not decode: it survives
encoding exactly when its variable parts fit the bound
(`Transitions.ChildDispatchRoundTrip`, `Transitions.LegalChildDispatchLost`).

## Assumptions of the at-most-once theorem

`InvocationRuns.AtMostOneCallPerAttempt` compares no clocks of different
workers. It assumes that each claim is processed by one call, that only the
processors use their own derived start identities, that renewals do not shorten
a lease, and that items are neither released for retry (no processor decides
that) nor put back from dead letters.

That renewals do not shorten a lease is where one clock matters: it follows, for
any interleaving with others, when a worker renews by the duration it claimed
with and its own clock does not go back from the claim to the last renewal
(`InvocationRuns.RenewalsNeverShorten`). The worker's renewals have that shape
under such a clock, if nobody else renews under its token
(`LeaseHandling.OwnRenewalsOrderly`).

## Model

| member | source | states |
|---|---|---|
| `Definitions.ValidateDefinition` | definition.go:249-296 | decides exactly the declarative notion of a valid definition: unique stable names, valid steps, resolving branches and, for orchestrations, valid control flow |
| `Definitions.ValidateOrchestrationControlFlow` | definition.go:298-345 | the owner, count and joined maps accept exactly: branches of the right kind, one owner per branch, every join matched to one earlier parallel step and no parallel step joined twice |
| `Definitions.ValidateStep` | definition.go:347-401 | decides the field rules of every step kind |
| `Definitions.ValidBranchNames` | definition.go:403-415 | branch names are stable and pairwise distinct, and nothing else |
| `Definitions.JoinBranchesEqualParallel` | definition.go:298-345 | pigeonhole: the branch set of every join of a valid orchestration equals that of one earlier parallel step |
| `Definitions.CompileRegistry` | registry.go:55-109 | a compiled registry holds exactly the given definitions, resolves every child pin and has only complete, registered, distinct migration edges; each refusal names a real defect |
| `Definitions.CheckChildPins` | registry.go:70-86 | a definition passes exactly when every child step's pin resolves with its digest |
| `Backoff.ComputeRetryDelay` | activity_history.go:158-167 | the 64-bit doubling loop never overflows and yields a positive delay within the maximum |
| `Backoff.RetryDelayClosedForm` | activity_history.go:158-167 | for every 32-bit attempt n >= 1 the delay is min(initial * 2^(n-1), maximum): sixty-three doublings suffice |
| `ReplayMachine.ReplayEvents` | history.go:333-348 | the loop over one mutable instance computes the replay function, with the same error on the same event |
| `ReplayMachine.ReplayedInstance.Apply` | history.go:482-603 | in-place application of one event equals the replay step, and a refused event leaves every field unchanged |
| `ReplayMachine.ReplayedInstance.ApplyActivity` | activity_history.go:67-143 | in-place activity progress equals the replay step, touching only that step's entry |
| `ReplayMachine.ReplayedInstance.ApplyCompensation` | compensation_history.go:105-233 | in-place compensation progress equals the replay step |
| `ReplayMachine.ReplayedInstance.ApplyChild` | child_history.go:115-201 | in-place child progress equals the replay step |
| `ReplayMachine.ReplayedInstance.ApplyWait` | wait_history.go:73-117 | in-place timer and signal progress equals the replay step |
| `ReplayMachine.ReplayedInstance.ApplyRace` | race_history.go:30-46 | in-place race decision equals the replay step |
| `ReplayMachine.ReplayedInstance.ApplyOperator` | operator.go:151-165 | appends the audit record and sets the pending action, or changes nothing |
| `ReplayMachine.ReplayedInstance.ApplyLifecycle` | history.go:502-559 | in-place lifecycle changes, migration and continuation equal the replay step |
| `ReplayMachine.ReplayedInstance.ApplyStart` | history.go:605-632 | the first event initialises every field or is refused without effect |
| `ReplayFrames.ApplyHeader` | history.go:482-603 | an accepted event is the next position of the same instance, not earlier than the last; only migrations change the pin and only terminal events make the status terminal |
| `ReplayFrames.AcceptedShape` | history.go:482-490 | accepted histories are contiguous from one, in time order, of one instance, started exactly once |
| `ReplayFrames.TerminalIsLast` | history.go:490-492 | only the last event can be terminal, and the replayed status is terminal exactly then |
| `ReplayFrames.AcceptedDefinition` | history.go:538-554 | the replayed pin is the start's definition replaced by each migration, and it resolves |
| `AttemptProtocol.MachineAcceptsExactlyWords` | activity_history.go:67-143 | the attempt state machine accepts exactly the grammar: admission, then numbered rounds of start, outcome and retry, with an optional manual resolution at the end |
| `AttemptProtocol.AttemptsAreSpaced` | activity_history.go:84-91 | in every word following a policy, attempt n starts no earlier than attempt 1 plus the policy's first n-1 delays |
| `ReplayTheorems.HistoryDrivesMachine` | activity_history.go:67-143 | the events of a step in any accepted history run the attempt machine to exactly the replayed progress, for activities, compensations and child starts; a child's own result leaves it in one of the phases that may report it |
| `ReplayTheorems.AttemptGrammar` | compensation_history.go:105-233 | in every history replay accepts, each activity, compensation and child start spells one word of the attempt grammar, attempts numbered 1, 2, 3 without a gap |
| `ReplayTheorems.StartsNeverRepeat` | activity_history.go:84-91 | no attempt of a step is started twice; later starts have larger numbers |
| `ReplayTheorems.OneOutcomePerAttempt` | activity_history.go:145-147 | no attempt ever gets two outcome events |
| `ReplayTheorems.AttemptsSpaced` | activity_history.go:132-140 | in accepted migration-free histories attempt n starts no earlier than attempt 1 plus the sum of the first n-1 delays and n is within the bound, for all three families |
| `ReplayTheorems.OnlySucceededActivitiesCompensated` | compensation_history.go:126-146 | in every accepted history, migrated or not, only succeeded activities have a compensation |
| `ReplayTheorems.ResolvedNeverSucceeds` | compensation_history.go:216-230 | after a manual resolution the compensation stays resolved whatever follows |
| `ReplayTheorems.AuditLaw` | history.go:493-497 | each operator audit is immediately followed by one event of its action's kind, none dangles at the end, and the audit trail lists exactly the recorded commands in order |
| `HistoryLaw.ReplayAcceptsExactly` | history.go:482-603 | replay accepts exactly the histories that are well told, a notion read off the events alone, and then every field of the instance is the one the events say |
| `HistoryLaw.ReplaysExactly` | history.go:333-348 | a whole history replays exactly when it is well told and does not end in an audit |
| `HistoryLaw.StatusIsTold` | history.go:502-559 | the status is completed, failed, cancelled, terminated or continued exactly when the last event is of that very kind, and otherwise decided by the last status-changing event |
| `HistoryLaw.InputIsTold` | history.go:538-554 | the input is the data of the start or of the latest migration |
| `ReplayMeaning.ActivityTells` | activity_history.go:67-143 | an activity event is accepted exactly when it continues its step's own events under the step's policy, and the new progress is what they say |
| `ReplayMeaning.CompensationTells` | compensation_history.go:105-233 | the same for compensations, whose admission needs a succeeded activity, and for manual resolutions |
| `ReplayMeaning.ChildTells` | child_history.go:115-201 | the same for child starts, and for child results, which are reportable in exactly four phases |
| `ReplayMeaning.TimerTells` | wait_history.go:73-117 | a timer is scheduled once, at its timeout, and fires once, not before it is due |
| `ReplayMeaning.SignalTells` | wait_history.go:73-117 | a signal is received once, with the event's identity, time and data |
| `Transitions.NewTransition` | transition.go:162-176 | the validating loops accept exactly the valid plans: contiguous, ordered, one instance, anchored distinct work, bounded bytes |
| `Transitions.ValidPlanMeans` | transition.go:207-252 | of any two events of a valid plan the earlier is not dated later, of any two work items the identities differ, and each item hangs off its own event, not due before it |
| `Transitions.CheckEvents` | transition.go:207-229 | position, owner and time checks in wrapping 64-bit arithmetic coincide with exact contiguity |
| `Transitions.CheckWork` | transition.go:239-251 | each work item hangs off an event of the plan and is not due before it; identities are distinct |
| `Transitions.DispatchRoundTrip` | activity_transition.go:49-78 | activity and compensation dispatch metadata always survives encoding and decoding |
| `PlannerSoundness.ActivityScheduleSound` | activity_transition.go:112-163 | a schedule plan replays on its instance into a ready activity with that input |
| `PlannerSoundness.ActivityStartSound` | activity_transition.go:184-265 | a start plan replays into the running attempt with its key and deadline |
| `PlannerSoundness.ActivityOutcomeExactly` | activity_transition.go:288-333 | an outcome plan replays exactly when the instance is not terminal, and then records that outcome |
| `PlannerSoundness.ActivityRetryExactly` | activity_transition.go:362-416 | a retry plan replays exactly when the instance is running, and then waits for the policy's delay |
| `PlannerSoundness.CompensationScheduleSound` | compensation_transition.go:110-171 | a compensation schedule replays into a ready compensation |
| `PlannerSoundness.CompensationStartSound` | compensation_transition.go:192-267 | a compensation start replays into the running attempt |
| `PlannerSoundness.CompensationOutcomeExactly` | compensation_transition.go:292-337 | a compensation outcome replays exactly when the instance is not terminal |
| `PlannerSoundness.CompensationRetrySound` | compensation_transition.go:368-420 | a compensation retry always replays |
| `PlannerSoundness.ChildScheduleSound` | child_transition.go:114-149 | with a compiled registry, a child schedule replays into the pinned scheduled child |
| `PlannerSoundness.ChildStartSound` | child_transition.go:234-273 | a child start replays into the running creation attempt |
| `PlannerSoundness.ChildStartOutcomeExactly` | child_transition.go:298-330 | a creation outcome replays exactly when the current definition still has the child step |
| `PlannerSoundness.ChildStartRetrySound` | child_transition.go:356-395 | a child start retry always replays |
| `PlannerSoundness.ChildOutcomeSound` | child_transition.go:176-208 | a child result always replays into success or failure by its code |
| `PlannerSoundness.TimerScheduleExactly` | wait_transition.go:39-73 | a timer plan at the current cursor replays exactly on a running instance without that timer and not dated before it |
| `PlannerSoundness.TimerFireExactly` | wait_transition.go:96-125 | a timer firing replays exactly when the timer is waiting and due on a running instance |
| `PlannerSoundness.SignalAcceptanceExactly` | wait_transition.go:149-171 | a signal replays exactly as the first for its step on a running or paused instance |
| `OperatorSoundness.LifecycleCommandSound` | operator.go:213-250 | an audited lifecycle command replays as a whole into the commanded status with its audit record |
| `OperatorSoundness.AuditAloneDoesNotReplay` | operator_work.go:245-297 | the audit event alone leaves a history replay refuses: the pair is atomic |
| `OperatorSoundness.OperatorRetryExactly` | operator_work.go:44-61 | an audited retry replays exactly when the instance is running |
| `OperatorSoundness.OperatorCompensationSound` | operator_work.go:103-121 | an audited compensation always replays |
| `OperatorSoundness.ResolutionExactly` | operator_work.go:153-189 | a manual resolution replays exactly when the instance is not terminal, into resolved and never succeeded |
| `OperatorSoundness.ApprovalExactly` | operator_work.go:218-243 | an approval replays exactly as the first for its step on a running or paused instance |
| `PlannerCompleteness.ActivityScheduleAccepts` | activity_transition.go:112-163 | answers with the well-formed plan around its one event exactly when the request is in order and replay accepts that event |
| `PlannerCompleteness.ActivityStartAccepts` | activity_transition.go:184-265 | answers with the well-formed plan around its one event exactly when the request is in order and replay accepts that event, the lease and its window included |
| `PlannerCompleteness.ActivityOutcomeAccepts` | activity_transition.go:288-333 | answers with the well-formed plan around its one event exactly when the request is in order and replay accepts that event on the instance taken as running |
| `PlannerCompleteness.ActivityRetryAccepts` | activity_transition.go:362-416 | answers with the well-formed plan around its one event exactly when the request is in order and replay accepts that event on the instance taken as running; the work asks for the next attempt |
| `PlannerCompleteness.CompensationScheduleAccepts` | compensation_transition.go:110-171 | answers with the well-formed plan around its one event exactly when the request is in order and replay accepts that event |
| `PlannerCompleteness.CompensationStartAccepts` | compensation_transition.go:192-267 | answers with the well-formed plan around its one event exactly when the request is in order and replay accepts that event, the lease and its window included |
| `PlannerCompleteness.CompensationOutcomeAccepts` | compensation_transition.go:292-337 | answers with the well-formed plan around its one event exactly when the request is in order and replay accepts that event on the instance taken as running |
| `PlannerCompleteness.CompensationRetryAccepts` | compensation_transition.go:368-420 | answers with the well-formed plan around its one event exactly when the request is in order and replay accepts that event; the work asks for the next attempt |
| `PlannerCompleteness.ChildScheduleAccepts` | child_transition.go:114-149 | answers with the well-formed plan around its one event exactly when the request is in order and replay accepts that event |
| `PlannerCompleteness.ChildStartAccepts` | child_transition.go:234-273 | answers with the well-formed plan around its one event exactly when the request is in order and replay accepts that event, the lease and its window included |
| `PlannerCompleteness.ChildStartRetryAccepts` | child_transition.go:356-395 | answers with the well-formed plan around its one event exactly when the request is in order and replay accepts that event; the work asks for the next attempt |
| `PlannerCompleteness.ChildOutcomeAccepts` | child_transition.go:176-208 | answers with the well-formed plan around its one event exactly when the request is in order and replay accepts that event |
| `PlannerCompleteness.ChildStartOutcomeAccepts` | child_transition.go:298-330 | refuses no well-formed request whose events replay would accept |
| `PlannerCompleteness.TimerScheduleAccepts` | wait_transition.go:39-73 | refuses no well-formed request whose events replay would accept |
| `PlannerCompleteness.TimerFireAccepts` | wait_transition.go:96-125 | refuses no well-formed request whose events replay would accept; and it plans only within the work's own window |
| `PlannerCompleteness.SignalAccepts` | wait_transition.go:149-171 | refuses no well-formed request whose events replay would accept |
| `PlannerCompleteness.LifecycleCommandAccepts` | operator.go:213-250 | refuses no well-formed request whose events replay would accept |
| `PlannerCompleteness.OperatorRetryAccepts` | operator_work.go:44-61 | refuses no well-formed request whose events replay would accept |
| `PlannerCompleteness.OperatorCompensationAccepts` | operator_work.go:103-121 | refuses no well-formed request whose events replay would accept |
| `PlannerCompleteness.ResolutionAccepts` | operator_work.go:153-189 | refuses no well-formed request whose events replay would accept |
| `PlannerCompleteness.ApprovalAccepts` | operator_work.go:218-243 | refuses no well-formed request whose events replay would accept |
| `HandOff.HandedWorkStarts` | activity_transition.go:184-265 | work that hands an attempt over starts it: with any valid lease, on any later open instance that has not moved the step, at every time the lease and the work allow |
| `HandOff.StartWithinBounds` | activity_transition.go:225-247 | a planned start lies inside its claim window, and its attempt inside the work's own times |
| `HandOff.ActivityScheduleHands` | activity_transition.go:112-163 | the plan's one work item, as requested, hands over attempt one |
| `HandOff.ActivityRetryHands` | activity_transition.go:362-416 | the plan's one work item, as requested, hands over the next attempt from the policy's delay on |
| `HandOff.CompensationScheduleHands` | compensation_transition.go:110-171 | the plan's one work item, as requested, hands over attempt one |
| `HandOff.CompensationRetryHands` | compensation_transition.go:368-420 | the plan's one work item, as requested, hands over the next attempt from the policy's delay on |
| `HandOff.ChildScheduleHands` | child_transition.go:114-149 | the plan's one work item, as requested, hands over attempt one of that child |
| `HandOff.ChildRetryHands` | child_transition.go:356-395 | the plan's one work item, as requested, hands over the next creation attempt of that child |
| `HandOff.OperatorRetryHands` | operator_work.go:44-61 | the plan's one work item, as requested, hands over the next attempt |
| `HandOff.OperatorCompensationHands` | operator_work.go:103-121 | the plan's one work item, as requested, hands over attempt one |
| `HandOff.ParallelHands` | orchestration.go:295-347 | every branch of a parallel plan has its own work item, which hands over that branch's first attempt |
| `HandOff.TimerHands` | wait_transition.go:96-125 | a scheduled timer's work fires, and replays, on any later running instance still waiting for it, from its due time on |
| `HandOff.TimerPlannable` | wait_transition.go:39-73 | every timer of a valid definition can be scheduled by a well-formed request |
| `Counterexamples.PausedRetryBreaksHistory` | activity_transition.go:362-388 | a concrete paused instance on which the retry planner's plan, once committed, makes the history unreplayable |
| `Counterexamples.TerminatedOutcomeBreaksHistory` | activity_transition.go:288-314 | a concrete terminated instance on which the outcome planner's plan makes the history unreplayable |
| `Counterexamples.EarlyTimerBreaksHistory` | wait_transition.go:39-73 | a concrete timer dated before the last event whose plan makes the history unreplayable |
| `LateCounterexamples.LateResolutionBreaksHistory` | operator_work.go:153-189 | a concrete terminated instance with an uncertain compensation on which the resolution planner's plan makes the history unreplayable |
| `LateCounterexamples.MigratedCreationBreaksHistory` | child_transition.go:298-330 | a concrete instance migrated while creating a child on which the creation outcome's plan makes the history unreplayable |
| `DecisionCounterexamples.EarlyTimerDecision` | orchestration.go:407-431 | a concrete timer decision dated before the start whose plan makes the history unreplayable |
| `DecisionCounterexamples.EarlyParallelDecision` | orchestration.go:295-347 | a concrete parallel decision dated before the start whose plan makes the history unreplayable |
| `DecisionCounterexamples.EarlyRaceDecision` | orchestration.go:202-239 | a concrete race decision dated before its winning signal whose plan makes the history unreplayable |
| `DecisionCounterexamples.EarlyTerminalDecision` | orchestration.go:433-458 | a concrete completion dated before the last signal whose plan makes the history unreplayable |
| `Orchestration.NewOrchestrationDecision` | orchestration.go:107-160 | the ordered loop with its member map computes the decision function |
| `Orchestration.FindWinner` | orchestration.go:209-220 | the loop with the zero-time sentinel never misfires: on dated receipts it computes the winner |
| `Orchestration.WinnerIsMinimal` | orchestration.go:202-220 | the winner has the earliest receipt, ties going to the branch declared first, and exists exactly when some branch was received |
| `Orchestration.ScheduleParallel` | orchestration.go:295-347 | the map and slices of the loop build exactly the all-branches plan |
| `Orchestration.DecideParallelStep` | orchestration.go:241-280 | the counting loop computes the parallel verdict |
| `Orchestration.DecideJoinStep` | orchestration.go:282-293 | done exactly when every branch activity succeeded |
| `Orchestration.BranchMembers` | orchestration.go:349-362 | the member set is exactly the branches of parallel and race steps |
| `OrchestrationTheorems.CompletionIsComplete` | orchestration.go:107-160 | a Completed decision implies every activity and child succeeded, every timer fired, every race has a winner and every non-race signal was received |
| `OrchestrationTheorems.FailureIsKnown` | orchestration.go:373-405 | a Failed decision names a step whose failure is known and not retryable or exhausted, with everything before it satisfied |
| `OrchestrationTheorems.NeverWaitsAtJoin` | orchestration.go:282-293 | a wait is always at the first unsatisfied step and never at a join |
| `OrchestrationTheorems.DoneMeansSatisfied` | orchestration.go:113-158 | a step's turn passes exactly when the step is satisfied |
| `DecisionExactness.DecisionExactly` | orchestration.go:107-160 | the first unsatisfied step in order decides, exactly: an exhausted failure ends the instance naming it, what is under way is waited for, what is untouched is admitted whenever its plan can be built, a parallel step admitted in part is an error |
| `DecisionExactness.ExhaustedMeans` | orchestration.go:394-399 | an activity is exhausted exactly when its failure is not retryable or its own attempts are used up |
| `DecisionExactness.ParallelRequestPlanned` | orchestration.go:295-347 | a parallel request naming every branch once, with valid keys and inputs within limits, is planned |
| `DecisionExactness.ParallelRequestExact` | orchestration.go:295-347 | and no other request is |
| `OrchestrationRuns.RaceIsStable` | orchestration.go:202-220 | whatever follows the first receipt, the winning time is unchanged and another branch wins only if declared earlier and received at that very time |
| `OrchestrationRuns.ReceiptsAreDated` | wait_history.go:78-92 | receipt times of replayed instances are set and never later than the last event |
| `OrchestrationRuns.DecisionsReplayExactly` | orchestration.go:433-458 | every decision's plan replays exactly when it is not dated before the instance |
| `OrchestrationRuns.DecisionProgresses` | orchestration.go:107-160 | every committed decision ends the instance or gives an open step its progress key |
| `OrchestrationRuns.DecisionsBounded` | orchestration.go:107-160 | a migration-free run commits at most one non-waiting decision per step and one more, however external events interleave |
| `OrchestrationRuns.BranchesStayTogether` | orchestration.go:241-280 | when only the orchestrator admits activities, each parallel step's branches are admitted all or none along every run |
| `OrchestrationRuns.MixedBranchesUnreachable` | orchestration.go:269-271 | in such runs the mixed-branch error cannot arise |
| `StoreMachine.StageTransition` | postgres/store.go:382-471 | one transaction's statements and loops compute the commit step, and a refusal leaves the tables as they were |
| `StoreMachine.PostgresStore.Commit` | postgres/store.go:337-358 | the reply and the new tables for every fate of the final commit: acknowledged, reply lost, or not durable |
| `StoreMachine.PostgresStore.ReconcileTransition` | postgres/store.go:308-332 | missing, committed or conflicting by identity and complete content |
| `StoreMachine.PostgresStore.Claim` | postgres/store.go:539-566 | leases exactly the chosen rows and returns them |
| `StoreMachine.PostgresStore.Renew` | postgres/store.go:572-592 | sets the expiry anew under a live fence, or is stale without effect |
| `StoreMachine.PostgresStore.Complete` | postgres/store.go:598-607 | completes exactly under a live fence |
| `StoreMachine.PostgresStore.Fail` | postgres/store.go:611-625 | releases or dead-letters exactly under a live fence |
| `StoreMachine.PostgresStore.ResolveDeadLetter` | postgres/store.go:679-748 | records one command per fence and retries or discards accordingly |
| `StoreRuns.ReachableIsOk` | postgres/migration.go:83-136 | every state reachable by store operations satisfies all invariants: contiguous keyed history, agreeing rows, tiling transitions, anchored work, unique fences |
| `StoreRuns.RunExtends` | postgres/store.go:382-471 | no run undoes anything durable: events, transitions, resolutions and finished work stay as they are, positions and tokens never fall |
| `StoreTheorems.RowAgreesWithReplay` | postgres/store.go:453-483 | for every stored history that replays, the row's pin, position and times are the replayed ones and it is archived exactly when the status is terminal |
| `StoreTheorems.PositionsTiled` | postgres/store.go:426-441 | each stored position belongs to exactly one durable transition, which holds that very event |
| `StoreTheorems.CommitIsIdempotent` | postgres/store.go:801-814 | committing the same plan again at any later time changes nothing and counts as committed |
| `StoreTheorems.ConflictForever` | postgres/store.go:801-825 | a plan whose identity another plan has used is refused, and reconciles as conflicting, at any later time |
| `Claimability.AppliesExactly` | postgres/store.go:382-471 | in a consistent store a valid plan is applied exactly when its identity and work are new, a position is left and it addresses the row's position and pin |
| `StoreTheorems.ClaimCounts` | postgres/store.go:177-203 | attempts equal the token, and a claim adds one to exactly the rows it takes |
| `StoreTheorems.StaleForever` | postgres/store.go:204-223 | once a newer claim exists, renew, complete and fail under an older token are refused forever |
| `StoreTheorems.FinishedForever` | postgres/store.go:209-213 | a completed row never changes again |
| `StoreTheorems.ClaimedLeasesValid` | work.go:139-145 | every row a claim takes is returned as a valid live lease of that owner |
| `StoreTheorems.RenewedLeaseValid` | postgres/store.go:572-592 | a successful renewal returns a valid lease under the same token |
| `StoreTheorems.FenceResolvedOnce` | postgres/migration.go:163-180 | each dead-letter fence has at most one resolution |
| `StoreTheorems.ResolutionIsIdempotent` | postgres/store.go:693-699 | repeating a resolution command changes nothing, however much later |
| `StoreTheorems.FenceClosed` | postgres/store.go:709-732 | every other command on a resolved fence is refused without effect, forever |
| `StoreTheorems.DiscardedForever` | postgres/store.go:224-233 | a discarded item stays dead-lettered, unlisted and unclaimable in every later state |
| `StoreTheorems.ListIsExact` | postgres/store.go:224-233 | the list shows exactly the dead-lettered items whose current fence is unresolved |
| `ClaimFairness.ClaimBounded` | postgres/store.go:185-190 | a claim takes only candidates and at most as many as asked for |
| `ClaimFairness.ClaimIsFair` | postgres/store.go:177-190 | while a tenant still has a candidate left out, no tenant is served more than one item more than it |
| `ClaimFairness.ClaimTakesAllItCan` | postgres/store.go:177-190 | a claim takes every candidate, or as many as it asks for |
| `ClaimFairness.LeftOutOnlyWhenFull` | postgres/store.go:177-190 | a candidate is left out only when the claim is full |
| `ClaimFairness.EarlierTakenFirst` | postgres/store.go:177-180 | within a tenant, what became available earlier is taken first |
| `ClaimFairness.RoundsTakenInOrder` | postgres/store.go:185-190 | across tenants, items go by how many of their own tenant are ahead of them, then by availability |
| `Claimability.RowDecides` | postgres/store.go:177-184 | a due item can be claimed exactly from its time to its deadline, a leased one exactly from the end of its lease, others never |
| `Claimability.FenceIsExact` | postgres/store.go:204-223 | a completion or failure takes effect, and a renewal is possible, exactly for the one that holds the lease, under its token and before it expires |
| `Claimability.CommittedWorkIsDue` | postgres/store.go:443-471 | a committed plan's work is stored as planned and due in exactly its own window |
| `Claimability.ClaimedUntilExpiry` | postgres/store.go:191-203 | a claimed item is claimable again exactly when its lease has run out |
| `Claimability.RenewedUntilExpiry` | postgres/store.go:204-208 | a renewal moves that time to now plus the extension, within the deadline |
| `Claimability.CompletedIsOver` | postgres/store.go:209-212 | a completed item is neither claimable nor listed |
| `Claimability.FailedWork` | postgres/store.go:213-223 | a released item is due exactly from its retry time; a dead letter is listed and never claimable |
| `Claimability.ResolvedWork` | postgres/store.go:238-247 | a resolved item is unlisted; retried it is due in exactly its new window, discarded never |
| `MultiWriter.PlansReplayExactly` | history.go:482-603 | for every planner at once: a plan made for a replayed instance replays exactly when the stated caller guard holds |
| `MultiWriter.AppliedMeansCurrent` | postgres/store.go:406-424 | a plan addressing a view read at any earlier state is applied only if that view is still the current instance |
| `MultiWriter.AppliedReplays` | postgres/store.go:443-471 | applying it makes the stored history replay to the planner's intended instance |
| `MultiWriter.CommittedReplaysExactly` | history.go:333-348 | once a plan made on the current instance is committed, the stored history replays if and only if that planner's caller guard held |
| `MultiWriter.UnguardedBreaksForever` | postgres/store.go:443-471 | when the guard did not hold, the history replays in no later state of the store |
| `MultiWriter.EveryHistoryReplays` | postgres/store.go:382-471 | along every run of writers with stale views and lost commits, each state is consistent, extends all earlier ones, and every stored history replays |
| `Inspection.NewHistoryPage` | store.go:144-159 | a page is accepted exactly when it is contiguous after the cursor, bounded, and full when more follows |
| `Inspection.TraverseHistory` | inspection.go:121-167 | with arbitrary commits between reads and any page size, success is exactly the history at the last read, an exceeded limit is real, and the budget shrinks with every page |
| `Inspection.InspectInstance` | inspection.go:58-86 | the result is the replay of exactly the history at the last read |
| `Inspection.NeverCutInsideAudit` | history.go:344-346 | a replayable history read back whole is never cut between an audit and its action |
| `Processing.CommitActivityTransition` | activity_processor.go:297-322 | whatever replies are lost and whoever interferes, success means exactly this transition is durable, and an error is a connection lost twice or a refusal the store really gave; undisturbed it succeeds exactly when the store does not refuse |
| `Processing.CommittedExactlyOnce` | postgres/store.go:801-825 | a durable transition's events are in history exactly once, at its own positions |
| `Processing.WorkProcessor.Execute` | activity_processor.go:173-211 | the handler is called at most once, only behind a durable start of that attempt dated by the clock, and completion follows the durable record of what it answered; undisturbed, a callable start is called with exactly the request it fixes |
| `Processing.WorkProcessor.PersistOutcome` | activity_processor.go:213-245 | completion is reported only once this very outcome is in history, dated by the clock or the event before it, read back from a history that still replays unless a child start went well; a retryable failure's retry is durable if one is due; a malformed answer is never recorded |
| `Processing.WorkProcessor.ScheduleRetry` | compensation_processor.go:241-281 | completes without a retry exactly when policy or deadline forbid one, and otherwise only with the retry durable |
| `Processing.WorkProcessor.Process` | activity_processor.go:78-211 | for all three processors: at most one handler call, behind a durable start; and the decision is the one that the history first read justifies: execute the next attempt, finish the current one, or give the item up with the fault's own code |
| `Processing.WorkProcessor.Decide` | activity_processor.go:110-147 | the next attempt of a carried step ends in an error or in exactly one call, never in a dead letter; nothing else is ever called; a dead letter means no carried step, or an attempt that is neither next nor current nor over |
| `Processing.WorkProcessor.ExecuteSafely` | activity_processor.go:283-295 | one call; a panic or an error is reported as unknown, never as a result; answers are reported as they are, except malformed ones of a child starter |
| `Processing.CallableStarts` | activity_processor.go:184-208 | once a callable start is committed, the history replays to the running attempt and the request is in order |
| `Processing.RetryHandsOn` | child_processor.go:214-251 | a retry plan is its own transition, and its work hands over the next attempt at the policy's delay, within the old item's deadline |
| `ProcessorLaw.ToldStanding` | activity_processor.go:110-147 | how a step stands for its processor is what its attempts in the history say |
| `ProcessorLaw.AttemptShown` | activity_processor.go:110-147 | an attempt is next or current in the history exactly when the standing shows it so |
| `Processing.FinishedIsRecorded` | child_processor.go:78-122 | progress that shows a finished attempt comes from an outcome event in the stored history |
| `Invocations.CallsAreDistinct` | activity_processor.go:173-198 | from the invariants: no two handler calls are for the same attempt of the same step |
| `InvocationRuns.NewIsLatest` | postgres/store.go:180-196 | claim windows of one work item follow each other without overlap |
| `InvocationRuns.AppliedStartReplays` | activity_transition.go:184-265 | a start that is applied was planned on the current instance, so the history it completes replays |
| `InvocationRuns.ReachableSystemOk` | activity_processor.go:110-211 | every move of any claim, run, crash, lost reply or other writer keeps the system's invariants |
| `InvocationRuns.AtMostOneCallPerAttempt` | activity_processor.go:173-211 | over every run of the concurrent system, at most one handler call happens per instance, step and attempt |
| `InvocationRuns.CurrentStartApplies` | postgres/store.go:382-424 | a start planned on the current instance is committed exactly when its fixed identity is unused and a position is left |
| `InvocationRuns.UndisturbedRunCalls` | activity_processor.go:173-211 | the bound is attained: an undisturbed claim whose start can be planned makes its one call exactly when no start of its work item is durable |
| `InvocationRuns.RenewalsNeverShorten` | worker.go:394-413 | whatever others do, renewals by the claimed duration and a clock that never goes back never shorten the claimed lease |
| `Worker.FairLeaseOrder` | worker.go:472-496 | a permutation that keeps each tenant's order and deals tenants in rounds, in the order of their first leases; every prefix is fair |
| `Worker.AdmissionLoop.Run` | worker.go:260-332 | with handlers finishing at any point, running handlers plus unread results equal the active count and never exceed the bound; exactly the leases returned within what was asked for are admitted and all are joined; the worker ends invalid exactly when a request is refused or a claim returns more than min(claim limit, free capacity) |
| `Worker.AdmissionLoop.TakeTurn` | worker.go:276-330 | one turn admits exactly the leases claimed within the limit asked for, oversteps exactly on a refused request or a larger claim, and collects a result only when it waits for one |
| `Worker.AdmissionLoop.SendResult` | worker.go:293-308 | a finishing handler always finds room in the result channel |
| `Worker.AdmissionLoop.Join` | worker.go:271-274 | shutdown joins every handler although nobody reads results any more |
| `Worker.AdmissionLoop.Admit` | worker.go:293-309 | one handler per lease of a claim, in fair order, within capacity |
| `LeaseHandling.Finalize` | worker.go:426-470 | the decision is applied exactly when its times are in order and the store's fence is still live |
| `LeaseHandling.Handle` | worker.go:361-422 | while others use the store and any reply may be lost, this worker's own calls are a prefix of the renewals under its token when it fails, and all renewals followed by one disposition on a lease still live otherwise; undisturbed it succeeds exactly when the fence is live whenever it is used |
| `LeaseHandling.OwnRenewalsOrderly` | worker.go:394-413 | with a clock that never goes back and no one else renewing under the token, the handled lease's renewals are orderly |

## Left out

- SQL text, drivers, isolation levels, timestamp precision: every store operation is one atomic step.
- The order of rows within one claim, and the paging of dead letters and instance lists.
- `Stage` inside a caller's own database transaction.
- JSON, SHA-256 and regular-expression engines; non-canonical encodings that decoders also accept.
- Contexts, deadlines, panics, hooks and goroutine scheduling: their effects are arbitrary choices.
- The context check inside the child starter, which reports a known absence: it is one of the arbitrary outcomes.
- LeaseHandling.Handle: the processor's own store calls are among those of others, and its decision is a parameter; Processing proves what they are.
- Choreography mode, message publication and reconciliation work: no operation of the modelled core acts on them.
- Byte-slice cloning, accessors, snapshot digests, sorted listings, error text and configuration checks.
- Liveness of retries: a retryable failure past the work deadline completes without a retry.
- InvocationRuns.AtMostOneCallPerAttempt: says nothing of effects outside the engine, which a handler may repeat on its own.
- Processing.WorkProcessor.Process: reading is one atomic replay, justified by Inspection.TraverseHistory rather than by paging again; while others interfere an error needs no further reason.
- PlannerCompleteness.ChildStartOutcomeAccepts: one way only, because that planner also accepts when the definition has lost the step.
