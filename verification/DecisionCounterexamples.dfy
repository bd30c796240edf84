/**
 * Concrete runs on which the orchestrator's decision, dated before the
 * instance's last event, is accepted and then breaks the history: one for each
 * kind of decision that leaves the date to its caller.
 */
module DecisionCounterexamples {
  import opened Basics
  import opened Definitions
  import opened Events
  import opened Replay
  import opened Transitions
  import opened Planners
  import opened Acceptance
  import opened PlannerCompleteness
  import opened Counterexamples
  import O = Orchestration
  import OrchestrationRuns
  import M = MultiWriter

  const PLAIN: StepSpec := StepSpec("", StepTimer, "", NO_REFERENCE, [], 10, 0, 0, RetryPolicy(0, 0, 0), 0, None)
  const TIMER_FLOW: Definition := Definition("t", "v", Orchestration, false, [WAIT_STEP])
  const PARALLEL_FLOW: Definition := Definition(
    "p", "v", Orchestration, false,
    [PLAIN.(name := "b", kind := StepParallel, branches := ["a"], fanOutLimit := 1), WORK_STEP])
  const SIGNAL_STEP: StepSpec := PLAIN.(name := "s", kind := StepSignal, target := "t", inputLimit := 10)
  const RACE_FLOW: Definition := Definition(
    "r", "v", Orchestration, false,
    [PLAIN.(name := "c", kind := StepRace, branches := ["s"], fanOutLimit := 1), SIGNAL_STEP])
  const SIGNAL_FLOW: Definition := Definition("s", "v", Orchestration, false, [SIGNAL_STEP])

  /** The registry of one definition. */
  function Only(d: Definition): Registry {
    Registry(map[KeyOf(d) := d], {})
  }

  lemma OnlyIsValid(d: Definition)
    requires ValidDefinition(d) && forall k | 0 <= k < |d.steps| :: d.steps[k].kind != StepChild
    ensures ValidRegistry(Only(d))
  {
    hide ValidDefinition;
  }

  lemma ParallelIsValid()
    ensures ValidDefinition(PARALLEL_FLOW)
  {
    var steps := PARALLEL_FLOW.steps;
    assert steps[1].name == "a";
    assert ValidStep(steps[0]) && ValidStep(steps[1]) && BranchesResolve(steps) && ValidControlFlow(steps);
  }

  lemma RaceIsValid()
    ensures ValidDefinition(RACE_FLOW)
  {
    var steps := RACE_FLOW.steps;
    assert steps[1].name == "s";
    assert ValidStep(steps[0]) && ValidStep(steps[1]) && BranchesResolve(steps) && ValidControlFlow(steps);
  }

  function Begun(d: Definition): HistoryEvent {
    BlankEvent(1, ID, Lifecycle(InstanceStarted), 2).(definition := d.Reference())
  }

  function New(d: Definition): Instance {
    BLANK.(id := ID, definition := d.Reference(), status := Running, sequence := 1, startedAt := 2, updatedAt := 2)
  }

  const SIGNALLED: HistoryEvent := BlankEvent(2, ID, SignalReceived, 3).(stepName := "s", idempotencyKey := Plain("g"))

  function Received(d: Definition): Instance {
    New(d).(sequence := 2, updatedAt := 3, signals := map["s" := SignalProgress("s", Plain("g"), 3, EMPTY)])
  }

  lemma BegunReplays(d: Definition)
    requires ValidDefinition(d)
    ensures ApplyAll(Only(d), BLANK, [Begun(d)]) == Ok(New(d)) && ValidEvents([Begun(d)])
  {
    ApplyOne(Only(d), BLANK, Begun(d));
  }

  lemma ReceivedReplays(d: Definition)
    requires ValidDefinition(d) && FindStep(d.steps, "s", StepSignal) == Some(SIGNAL_STEP)
    ensures ApplyAll(Only(d), BLANK, [Begun(d), SIGNALLED]) == Ok(Received(d)) && ValidEvents([Begun(d), SIGNALLED])
  {
    hide ApplyAll, Apply, ValidDefinition;
    BegunReplays(d);
    AcceptSignal(Only(d), New(d), SIGNALLED);
    Snoc(Only(d), [Begun(d)], SIGNALLED);
    assert [Begun(d)] + [SIGNALLED] == [Begun(d), SIGNALLED];
  }

  /** The first decision on an instance, dated at its very start. */
  function Early(i: Instance, d: Definition): O.DecisionSpec {
    O.DecisionSpec(Plain("x"), Plain("n"), i, d, 1, 100, Plain("k"), EMPTY, EMPTY, NO_ROUTE, NO_IDENT,
                   [O.BranchSpec("a", Plain("n"), Plain("k"), EMPTY)])
  }

  lemma ScheduledTimer() returns (t: Transition)
    ensures O.Decide(Early(New(TIMER_FLOW), TIMER_FLOW)) == Ok(O.Scheduled("w", t))
  {
    hide ValidTransition, Plan;
    var s := Early(New(TIMER_FLOW), TIMER_FLOW);
    var e := BlankEvent(2, ID, TimerScheduled, 1).(stepName := "w", dueAt := 11);
    var w := PendingWork(Plain("n"), WorkTimer, ID, 2, 11, 100, Text("w"), NO_IDENT, NO_IDENT);
    t := Transition(Plain("x"), ID, 1, TIMER_FLOW.Reference(), [e], [w]);
    assert FindStep(TIMER_FLOW.steps, "w", StepTimer) == Some(WAIT_STEP);
    PlanAccepted(t);
    assert O.TurnOf(s, 0) == O.Decided(O.Scheduled("w", t));
  }

  const BRANCH_EVENT: HistoryEvent := BlankEvent(2, ID, Activity(AttemptAdmitted), 1).(stepName := "a")
  const BRANCH_WORK: PendingWork := PendingWork(
    Plain("n"), WorkActivity, ID, 2, 1, 100, DispatchDocument("a", 1, Plain("k")), NO_IDENT, NO_IDENT)

  lemma BranchAccepted() returns (t: Transition)
    ensures PlanOn(Plain("x"), New(PARALLEL_FLOW), [BRANCH_EVENT], [BRANCH_WORK]) == Some(t)
  {
    hide ValidTransition, Plan;
    t := Transition(Plain("x"), ID, 1, PARALLEL_FLOW.Reference(), [BRANCH_EVENT], [BRANCH_WORK]);
    PlanAccepted(t);
  }

  lemma BranchPlan() returns (t: Transition)
    ensures O.ParallelPlan(Early(New(PARALLEL_FLOW), PARALLEL_FLOW), PARALLEL_FLOW.steps[0]) == Some(t)
  {
    hide PlanOn;
    var s := Early(New(PARALLEL_FLOW), PARALLEL_FLOW);
    assert PARALLEL_FLOW.steps[1..][0] == WORK_STEP;
    assert FindStep(PARALLEL_FLOW.steps, "a", StepActivity) == Some(WORK_STEP);
    assert O.FindBranch(s.branches, "a") == Some(s.branches[0]);
    hide FindStep, O.FindBranch;
    assert O.BranchReady(s, "a") && O.BranchEvents(s, ["a"]) == [BRANCH_EVENT] && O.BranchWorks(s, ["a"]) == [BRANCH_WORK];
    t := BranchAccepted();
  }

  lemma AdmittedBranch() returns (t: Transition)
    ensures O.Decide(Early(New(PARALLEL_FLOW), PARALLEL_FLOW)) == Ok(O.Scheduled("b", t))
  {
    hide O.ParallelPlan;
    var s, control := Early(New(PARALLEL_FLOW), PARALLEL_FLOW), PARALLEL_FLOW.steps[0];
    t := BranchPlan();
    assert O.ScanBranches(s, control, 0) == O.Missing(0);
    assert O.ScanBranches(s, control, 1) == O.Missing(1);
    assert O.TurnOf(s, 0) == O.Decided(O.Scheduled("b", t));
  }

  lemma RecordedWinner() returns (t: Transition)
    ensures O.Decide(Early(Received(RACE_FLOW), RACE_FLOW)) == Ok(O.Recorded("c", t))
  {
    hide ValidTransition, Plan;
    var s := Early(Received(RACE_FLOW), RACE_FLOW);
    var e := BlankEvent(3, ID, RaceWon, 1).(stepName := "c", data := Bytes("s"));
    t := Transition(Plain("x"), ID, 2, RACE_FLOW.Reference(), [e], []);
    PlanAccepted(t);
    assert O.Winner([], s.instance.signals) == None;
    assert ["s"][..0] == [];
    assert O.Winner(["s"], s.instance.signals) == Some("s");
    assert O.TurnOf(s, 0) == O.Decided(O.Recorded("c", t));
  }

  lemma CompletedFlow() returns (t: Transition)
    ensures O.Decide(Early(Received(SIGNAL_FLOW), SIGNAL_FLOW)) == Ok(O.Completion(t))
  {
    hide ValidTransition, Plan;
    var s := Early(Received(SIGNAL_FLOW), SIGNAL_FLOW);
    var e := BlankEvent(3, ID, Lifecycle(InstanceCompleted), 1);
    t := Transition(Plain("x"), ID, 2, SIGNAL_FLOW.Reference(), [e], []);
    PlanAccepted(t);
    assert O.TurnOf(s, 0) == O.Done;
    assert O.DecideFrom(s, 1) == Ok(O.Completion(t));
  }

  lemma EarlyIsUnguarded(d: Definition, h: seq<HistoryEvent>, i: Instance)
    requires ValidDefinition(d) && forall k | 0 <= k < |d.steps| :: d.steps[k].kind != StepChild
    requires ValidEvents(h) && h != [] && |h| < MAX_UINT64 && ApplyAll(Only(d), BLANK, h) == Ok(i)
    requires i.pendingOperator.NoAction? && i.updatedAt > 1
    requires O.Decide(Early(i, d)).Ok? && OrchestrationRuns.PlanOf(O.Decide(Early(i, d)).value).Some?
    ensures ValidRegistry(Only(d)) && ReplayHistory(Only(d), h) == Ok(i)
    ensures ReplayHistory(Only(d), h + OrchestrationRuns.PlanOf(O.Decide(Early(i, d)).value).value.events).Err?
  {
    hide ValidDefinition, ValidEvents, ApplyAll, O.Decide;
    OnlyIsValid(d);
    hide ValidRegistry;
    UnguardedBreaks(Only(d), h, i, M.DecideNext(Early(i, d)));
  }

  /** A timer scheduled at a time before the instance started. */
  lemma EarlyTimerDecision() returns (t: Transition)
    ensures ValidRegistry(Only(TIMER_FLOW)) && ReplayHistory(Only(TIMER_FLOW), [Begun(TIMER_FLOW)]) == Ok(New(TIMER_FLOW))
    ensures O.Decide(Early(New(TIMER_FLOW), TIMER_FLOW)) == Ok(O.Scheduled("w", t))
    ensures ReplayHistory(Only(TIMER_FLOW), [Begun(TIMER_FLOW)] + t.events).Err?
  {
    hide O.Decide, ReplayHistory, ApplyAll, ValidRegistry, ValidEvents;
    assert ValidDefinition(TIMER_FLOW);
    hide ValidDefinition;
    BegunReplays(TIMER_FLOW);
    t := ScheduledTimer();
    EarlyIsUnguarded(TIMER_FLOW, [Begun(TIMER_FLOW)], New(TIMER_FLOW));
  }

  /** Parallel branches admitted at a time before the instance started. */
  lemma EarlyParallelDecision() returns (t: Transition)
    ensures ValidRegistry(Only(PARALLEL_FLOW))
    ensures ReplayHistory(Only(PARALLEL_FLOW), [Begun(PARALLEL_FLOW)]) == Ok(New(PARALLEL_FLOW))
    ensures O.Decide(Early(New(PARALLEL_FLOW), PARALLEL_FLOW)) == Ok(O.Scheduled("b", t))
    ensures ReplayHistory(Only(PARALLEL_FLOW), [Begun(PARALLEL_FLOW)] + t.events).Err?
  {
    hide O.Decide, ReplayHistory, ApplyAll, ValidRegistry, ValidEvents, ValidDefinition;
    ParallelIsValid();
    BegunReplays(PARALLEL_FLOW);
    t := AdmittedBranch();
    EarlyIsUnguarded(PARALLEL_FLOW, [Begun(PARALLEL_FLOW)], New(PARALLEL_FLOW));
  }

  /** A race won at a time before the winning signal came. */
  lemma EarlyRaceDecision() returns (t: Transition)
    ensures ValidRegistry(Only(RACE_FLOW))
    ensures ReplayHistory(Only(RACE_FLOW), [Begun(RACE_FLOW), SIGNALLED]) == Ok(Received(RACE_FLOW))
    ensures O.Decide(Early(Received(RACE_FLOW), RACE_FLOW)) == Ok(O.Recorded("c", t))
    ensures ReplayHistory(Only(RACE_FLOW), [Begun(RACE_FLOW), SIGNALLED] + t.events).Err?
  {
    hide O.Decide, ReplayHistory, ApplyAll, ValidRegistry, ValidEvents, ValidDefinition;
    RaceIsValid();
    assert RACE_FLOW.steps[1..][0] == SIGNAL_STEP;
    ReceivedReplays(RACE_FLOW);
    t := RecordedWinner();
    EarlyIsUnguarded(RACE_FLOW, [Begun(RACE_FLOW), SIGNALLED], Received(RACE_FLOW));
  }

  /** An instance completed at a time before the signal that completes it came. */
  lemma EarlyTerminalDecision() returns (t: Transition)
    ensures ValidRegistry(Only(SIGNAL_FLOW))
    ensures ReplayHistory(Only(SIGNAL_FLOW), [Begun(SIGNAL_FLOW), SIGNALLED]) == Ok(Received(SIGNAL_FLOW))
    ensures O.Decide(Early(Received(SIGNAL_FLOW), SIGNAL_FLOW)) == Ok(O.Completion(t))
    ensures ReplayHistory(Only(SIGNAL_FLOW), [Begun(SIGNAL_FLOW), SIGNALLED] + t.events).Err?
  {
    hide O.Decide, ReplayHistory, ApplyAll, ValidRegistry, ValidEvents;
    assert ValidDefinition(SIGNAL_FLOW);
    hide ValidDefinition;
    ReceivedReplays(SIGNAL_FLOW);
    t := CompletedFlow();
    EarlyIsUnguarded(SIGNAL_FLOW, [Begun(SIGNAL_FLOW), SIGNALLED], Received(SIGNAL_FLOW));
  }
}
