/**
 * Concrete runs on which a planner accepts what replay then refuses, so that
 * committing its plan leaves a history that no longer replays.
 */
module Counterexamples {
  import opened Basics
  import opened Definitions
  import opened Events
  import opened Replay
  import opened Transitions
  import opened Planners
  import opened Acceptance
  import opened PlannerSoundness
  import opened PlannerCompleteness
  import M = MultiWriter

  const WORK_STEP: StepSpec := StepSpec(
    "a", StepActivity, "t", NO_REFERENCE, [], 10, 100, 100, RetryPolicy(3, 1, 5), 0, None)
  const WAIT_STEP: StepSpec := StepSpec(
    "w", StepTimer, "", NO_REFERENCE, [], 10, 0, 0, RetryPolicy(0, 0, 0), 0, None)
  const FLOW: Definition := Definition("d", "v", Orchestration, false, [WORK_STEP, WAIT_STEP])
  const REGISTRY: Registry := Registry(map[DefinitionKey("d", "v") := FLOW], {})
  const ID: Ident := Plain("i")
  const NO_ROUTE: Routing := Routing(NO_IDENT, NO_IDENT)

  const STARTED: HistoryEvent :=
    BlankEvent(1, ID, Lifecycle(InstanceStarted), 1).(definition := FLOW.Reference())
  const ADMITTED: HistoryEvent := BlankEvent(2, ID, Activity(AttemptAdmitted), 2).(stepName := "a")
  const RUNNING: HistoryEvent :=
    BlankEvent(3, ID, Activity(AttemptStarted), 3).(stepName := "a", attempt := 1, idempotencyKey := Plain("k"), dueAt := 13)
  const FAILED: HistoryEvent :=
    BlankEvent(4, ID, Activity(AttemptFailed), 4).(stepName := "a", attempt := 1, code := "x", retryable := true)
  const PAUSED: HistoryEvent := BlankEvent(5, ID, Lifecycle(InstancePaused), 5)
  const TERMINATED: HistoryEvent := BlankEvent(4, ID, Lifecycle(InstanceTerminated), 4)

  const FRESH: Instance :=
    BLANK.(id := ID, definition := FLOW.Reference(), status := Running, sequence := 1, startedAt := 1, updatedAt := 1)
  const QUEUED: Instance :=
    FRESH.(sequence := 2, updatedAt := 2, activities := map["a" := ActivityProgress(
             "a", ActivityReady, 0, NO_IDENT, 0, EMPTY, EMPTY, "", false)])
  const WORKING: Instance :=
    FRESH.(sequence := 3, updatedAt := 3, activities := map["a" := ActivityProgress(
             "a", ActivityRunning, 1, Plain("k"), 13, EMPTY, EMPTY, "", false)])
  const BROKEN: Instance :=
    FRESH.(sequence := 4, updatedAt := 4, activities := map["a" := ActivityProgress(
             "a", ActivityFailed, 1, Plain("k"), 0, EMPTY, EMPTY, "x", true)])
  const STUCK: Instance :=
    FRESH.(status := Paused, sequence := 5, updatedAt := 5, activities := map["a" := ActivityProgress(
             "a", ActivityFailed, 1, Plain("k"), 0, EMPTY, EMPTY, "x", true)])
  const ENDED: Instance := WORKING.(status := Terminated, sequence := 4, updatedAt := 4)

  lemma RegistryIsValid()
    ensures ValidRegistry(REGISTRY)
  {
    assert ValidStep(WORK_STEP) && ValidStep(WAIT_STEP);
    assert ValidDefinition(FLOW);
  }

  /** One more event. */
  lemma Snoc(registry: Registry, h: seq<HistoryEvent>, e: HistoryEvent)
    ensures ApplyAll(registry, BLANK, h + [e]) ==
            if ApplyAll(registry, BLANK, h).Ok? then Apply(registry, ApplyAll(registry, BLANK, h).value, e)
            else ApplyAll(registry, BLANK, h)
  {
    hide Apply;
    assert (h + [e])[..|h + [e]| - 1] == h;
  }

  lemma StartedReplays()
    ensures ApplyAll(REGISTRY, BLANK, [STARTED]) == Ok(FRESH)
  {
    ApplyOne(REGISTRY, BLANK, STARTED);
  }

  lemma FindsWork()
    ensures FindStep(CurrentSteps(REGISTRY, FLOW.Reference()), "a", StepActivity) == Some(WORK_STEP)
  {
  }

  lemma ActivityEvent(i: Instance, e: HistoryEvent, next: ActivityProgress)
    requires Fits(i, e) && e.kind.Activity? && i.status.Running? && e.stepName == "a" && i.pendingOperator.NoAction?
    requires i.definition == FLOW.Reference()
    requires ActivityNext(WORK_STEP, i.status, Lookup(i.activities, "a"), e.kind.phase, e) == Some(next)
    ensures Apply(REGISTRY, i, e) == Ok(Advanced(i, e).(activities := i.activities["a" := next]))
  {
    hide Apply, ActivityNext, Dispatch;
    FindsWork();
    AcceptActivity(REGISTRY, i, e);
  }

  lemma WorkingReplays()
    ensures ApplyAll(REGISTRY, BLANK, [STARTED, ADMITTED, RUNNING]) == Ok(WORKING)
  {
    hide Apply, ApplyAll, ApplyActivity, Dispatch;
    StartedReplays();
    ActivityEvent(FRESH, ADMITTED, QUEUED.activities["a"]);
    assert FRESH.activities["a" := QUEUED.activities["a"]] == QUEUED.activities;
    Snoc(REGISTRY, [STARTED], ADMITTED);
    ActivityEvent(QUEUED, RUNNING, WORKING.activities["a"]);
    assert QUEUED.activities["a" := WORKING.activities["a"]] == WORKING.activities;
    Snoc(REGISTRY, [STARTED] + [ADMITTED], RUNNING);
    assert [STARTED] + [ADMITTED] + [RUNNING] == [STARTED, ADMITTED, RUNNING];
  }

  lemma StuckReplays()
    ensures ApplyAll(REGISTRY, BLANK, [STARTED, ADMITTED, RUNNING, FAILED, PAUSED]) == Ok(STUCK)
  {
    hide Apply, ApplyAll, ApplyActivity, Dispatch;
    WorkingReplays();
    ActivityEvent(WORKING, FAILED, BROKEN.activities["a"]);
    assert WORKING.activities["a" := BROKEN.activities["a"]] == BROKEN.activities;
    Snoc(REGISTRY, [STARTED, ADMITTED, RUNNING], FAILED);
    AcceptLifecycle(REGISTRY, BROKEN, PAUSED);
    Snoc(REGISTRY, [STARTED, ADMITTED, RUNNING] + [FAILED], PAUSED);
    assert [STARTED, ADMITTED, RUNNING] + [FAILED] + [PAUSED] == [STARTED, ADMITTED, RUNNING, FAILED, PAUSED];
  }

  lemma EndedReplays()
    ensures ApplyAll(REGISTRY, BLANK, [STARTED, ADMITTED, RUNNING, TERMINATED]) == Ok(ENDED)
  {
    WorkingReplays();
    Snoc(REGISTRY, [STARTED, ADMITTED, RUNNING], TERMINATED);
    assert [STARTED, ADMITTED, RUNNING] + [TERMINATED] == [STARTED, ADMITTED, RUNNING, TERMINATED];
  }

  const RETRY: RetrySpec := RetrySpec(Plain("r"), Plain("n"), STUCK, FLOW, "a", Plain("m"), 6, 100, NO_ROUTE)
  const REPORT: OutcomeSpec :=
    OutcomeSpec(Plain("o"), ENDED, FLOW, "a", 1, 5, Outcome(OutcomeSucceeded, "", false, EMPTY))
  const EARLY: TimerScheduleSpec :=
    TimerScheduleSpec(Plain("z"), Plain("y"), ID, 3, FLOW, "w", 2, 100, NO_ROUTE)

  lemma RetryAccepted() returns (t: Transition)
    ensures NewActivityRetry(RETRY) == Some(t)
  {
    hide ValidTransition, Plan;
    var e := EventOn(STUCK, Activity(AttemptRetry), 6).(stepName := "a", attempt := 1, dueAt := 7);
    var w := PendingWork(Plain("n"), WorkActivity, ID, 6, 7, 100, DispatchDocument("a", 2, Plain("m")), NO_IDENT, NO_IDENT);
    t := Transition(Plain("r"), ID, 5, FLOW.Reference(), [e], [w]);
    assert FindStep(FLOW.steps, "a", StepActivity) == Some(WORK_STEP);
    PlanAccepted(t);
  }

  /**
   * A retry planned for a paused instance is accepted, and committing it makes
   * the history unreplayable. The activity processor plans such a retry when
   * an operator pauses the instance while an attempt is failing.
   */
  lemma PausedRetryBreaksHistory() returns (t: Transition)
    ensures ValidRegistry(REGISTRY)
    ensures ReplayHistory(REGISTRY, [STARTED, ADMITTED, RUNNING, FAILED, PAUSED]) == Ok(RETRY.instance)
    ensures NewActivityRetry(RETRY) == Some(t)
    ensures ReplayHistory(REGISTRY, [STARTED, ADMITTED, RUNNING, FAILED, PAUSED] + t.events).Err?
  {
    hide ApplyAll, NewActivityRetry;
    RegistryIsValid();
    StuckReplays();
    t := RetryAccepted();
    ActivityRetryExactly(REGISTRY, RETRY);
    ApplyAllConcat(REGISTRY, BLANK, [STARTED, ADMITTED, RUNNING, FAILED, PAUSED], t.events);
  }

  lemma ReportAccepted() returns (t: Transition)
    ensures NewActivityAttemptOutcome(REPORT) == Some(t)
  {
    hide ValidTransition, Plan;
    var e := EventOn(ENDED, Activity(AttemptSucceeded), 5).(stepName := "a", attempt := 1);
    t := Transition(Plain("o"), ID, 4, FLOW.Reference(), [e], []);
    assert FindStep(FLOW.steps, "a", StepActivity) == Some(WORK_STEP);
    PlanAccepted(t);
  }

  /**
   * An outcome planned for an instance terminated during the attempt is
   * accepted, and committing it makes the history unreplayable.
   */
  lemma TerminatedOutcomeBreaksHistory() returns (t: Transition)
    ensures ValidRegistry(REGISTRY)
    ensures ReplayHistory(REGISTRY, [STARTED, ADMITTED, RUNNING, TERMINATED]) == Ok(REPORT.instance)
    ensures NewActivityAttemptOutcome(REPORT) == Some(t)
    ensures ReplayHistory(REGISTRY, [STARTED, ADMITTED, RUNNING, TERMINATED] + t.events).Err?
  {
    hide ApplyAll, NewActivityAttemptOutcome;
    RegistryIsValid();
    EndedReplays();
    t := ReportAccepted();
    ActivityOutcomeExactly(REGISTRY, REPORT);
    ApplyAllConcat(REGISTRY, BLANK, [STARTED, ADMITTED, RUNNING, TERMINATED], t.events);
  }

  lemma EarlyAccepted() returns (t: Transition)
    ensures NewTimerSchedule(EARLY) == Some(t) && Addresses(t, WORKING)
  {
    hide ValidTransition, Plan;
    var e := BlankEvent(4, ID, TimerScheduled, 2).(stepName := "w", dueAt := 12);
    var w := PendingWork(Plain("y"), WorkTimer, ID, 4, 12, 100, Text("w"), NO_IDENT, NO_IDENT);
    t := Transition(Plain("z"), ID, 3, FLOW.Reference(), [e], [w]);
    assert FindStep(FLOW.steps, "w", StepTimer) == Some(WAIT_STEP);
    PlanAccepted(t);
  }

  /** A timer dated before the instance's last event is accepted, and breaks the history in the same way. */
  lemma EarlyTimerBreaksHistory() returns (t: Transition)
    ensures ValidRegistry(REGISTRY)
    ensures ReplayHistory(REGISTRY, [STARTED, ADMITTED, RUNNING]) == Ok(WORKING)
    ensures NewTimerSchedule(EARLY) == Some(t) && Addresses(t, WORKING)
    ensures ReplayHistory(REGISTRY, [STARTED, ADMITTED, RUNNING] + t.events).Err?
  {
    hide ApplyAll, NewTimerSchedule;
    RegistryIsValid();
    WorkingReplays();
    t := EarlyAccepted();
    TimerScheduleExactly(REGISTRY, WORKING, EARLY);
    ApplyAllConcat(REGISTRY, BLANK, [STARTED, ADMITTED, RUNNING], t.events);
  }

  // --- in general ---------------------------------------------------------

  /** A history, the instance it replays to, and an accepted plan for it whose caller guard fails. */
  ghost predicate Unguarded(registry: Registry, h: seq<HistoryEvent>, i: Instance, p: M.Proposal) {
    && ValidRegistry(registry) && ValidEvents(h) && h != [] && ReplayHistory(registry, h) == Ok(i)
    && M.MadeFor(p, i) && M.TransitionOf(p).Some? && !M.CallerGuard(p, i)
  }

  /** Committing such a plan makes the history unreplayable. */
  lemma UnguardedBreaks(registry: Registry, h: seq<HistoryEvent>, i: Instance, p: M.Proposal)
    requires Unguarded(registry, h, i, p) && |h| < MAX_UINT64
    ensures ReplayHistory(registry, h + M.TransitionOf(p).value.events).Err?
  {
    hide ValidRegistry, ValidEvents, ApplyAll, Settled, M.MadeFor, M.TransitionOf, M.CallerGuard;
    ReplayedIsSettled(registry, h);
    M.PlansReplayExactly(registry, i, p);
    ApplyAllConcat(registry, BLANK, h, M.TransitionOf(p).value.events);
  }
}
