/**
 * Concrete runs on which a plan comes too late: a manual resolution after the
 * instance ended, and a creation outcome after a migration removed the child
 * step. Both are accepted and then break the history.
 */
module LateCounterexamples {
  import opened Basics
  import opened Definitions
  import opened Events
  import opened Replay
  import opened Transitions
  import opened Planners
  import opened Acceptance
  import opened PlannerCompleteness
  import opened Counterexamples
  import opened DecisionCounterexamples
  import M = MultiWriter

  // --- a resolution after the end -----------------------------------------

  const UNDO: CompensationSpec := CompensationSpec("t", 10, 100, RetryPolicy(3, 1, 5))
  const UNDOABLE: StepSpec := WORK_STEP.(compensation := Some(UNDO))
  const UNDO_FLOW: Definition := Definition("u", "v", Orchestration, false, [UNDOABLE])

  lemma UndoIsValid()
    ensures ValidDefinition(UNDO_FLOW)
  {
    assert ValidStep(UNDOABLE);
  }

  const ADMITTED_3: HistoryEvent := BlankEvent(2, ID, Activity(AttemptAdmitted), 3).(stepName := "a")
  const STARTED_4: HistoryEvent :=
    BlankEvent(3, ID, Activity(AttemptStarted), 4).(stepName := "a", attempt := 1, idempotencyKey := Plain("k"), dueAt := 14)
  const SUCCEEDED_5: HistoryEvent := BlankEvent(4, ID, Activity(AttemptSucceeded), 5).(stepName := "a", attempt := 1)
  const UNDO_ADMITTED_6: HistoryEvent := BlankEvent(5, ID, Compensation(AttemptAdmitted), 6).(stepName := "a")
  const UNDO_STARTED_7: HistoryEvent := BlankEvent(6, ID, Compensation(AttemptStarted), 7).(
    stepName := "a", attempt := 1, idempotencyKey := Plain("k"), dueAt := 17)
  const UNDO_UNKNOWN_8: HistoryEvent :=
    BlankEvent(7, ID, Compensation(AttemptUnknown), 8).(stepName := "a", attempt := 1, code := "x")
  const TERMINATED_9: HistoryEvent := BlankEvent(8, ID, Lifecycle(InstanceTerminated), 9)

  const READY: ActivityProgress := ActivityProgress("a", ActivityReady, 0, NO_IDENT, 0, EMPTY, EMPTY, "", false)
  const BUSY: ActivityProgress := READY.(status := ActivityRunning, attempt := 1, idempotencyKey := Plain("k"), dueAt := 14)
  const OVER: ActivityProgress := BUSY.(status := ActivitySucceeded, dueAt := 0)
  const UNDO_READY: CompensationProgress :=
    CompensationProgress("a", CompensationReady, 5, 0, NO_IDENT, 0, EMPTY, EMPTY, "", false)
  const UNDO_BUSY: CompensationProgress :=
    UNDO_READY.(status := CompensationRunning, attempt := 1, idempotencyKey := Plain("k"), dueAt := 17)
  const UNDO_LOST: CompensationProgress := UNDO_BUSY.(status := CompensationUnknown, dueAt := 0, code := "x")

  /** The instance at a position, with the progress of its one activity. */
  function At(position: Uint64, time: Time, progress: ActivityProgress): Instance {
    New(UNDO_FLOW).(sequence := position, updatedAt := time, activities := map["a" := progress])
  }

  function UndoAt(position: Uint64, time: Time, progress: CompensationProgress): Instance {
    At(position, time, OVER).(compensations := map["a" := progress])
  }

  const DONE: seq<HistoryEvent> := [Begun(UNDO_FLOW), ADMITTED_3, STARTED_4, SUCCEEDED_5]
  const LOST: seq<HistoryEvent> := DONE + [UNDO_ADMITTED_6, UNDO_STARTED_7, UNDO_UNKNOWN_8, TERMINATED_9]
  const LOST_INSTANCE: Instance := UndoAt(8, 9, UNDO_LOST).(status := Terminated)

  lemma FindsUndo()
    ensures FindStep(CurrentSteps(Only(UNDO_FLOW), UNDO_FLOW.Reference()), "a", StepActivity) == Some(UNDOABLE)
    ensures FindStep(UNDO_FLOW.steps, "a", StepActivity) == Some(UNDOABLE)
  {
  }

  lemma Act(h: seq<HistoryEvent>, i: Instance, e: HistoryEvent, next: ActivityProgress)
    requires ApplyAll(Only(UNDO_FLOW), BLANK, h) == Ok(i) && i.definition == UNDO_FLOW.Reference()
    requires Fits(i, e) && e.kind.Activity? && i.status.Running? && e.stepName == "a" && i.pendingOperator.NoAction?
    requires ActivityNext(UNDOABLE, i.status, Lookup(i.activities, "a"), e.kind.phase, e) == Some(next)
    ensures ApplyAll(Only(UNDO_FLOW), BLANK, h + [e]) == Ok(Advanced(i, e).(activities := i.activities["a" := next]))
  {
    hide Apply, ApplyAll, ActivityNext;
    FindsUndo();
    AcceptActivity(Only(UNDO_FLOW), i, e);
    Snoc(Only(UNDO_FLOW), h, e);
  }

  lemma Undo(h: seq<HistoryEvent>, i: Instance, e: HistoryEvent, next: CompensationProgress)
    requires ApplyAll(Only(UNDO_FLOW), BLANK, h) == Ok(i) && i.definition == UNDO_FLOW.Reference()
    requires Fits(i, e) && e.kind.Compensation? && i.status.Running? && e.stepName == "a" && i.pendingOperator.NoAction?
    requires CompensationNext(UNDO, i.status, Lookup(i.activities, "a"), Lookup(i.compensations, "a"), e.kind.phase, e) ==
             Some(next)
    ensures ApplyAll(Only(UNDO_FLOW), BLANK, h + [e]) == Ok(Advanced(i, e).(compensations := i.compensations["a" := next]))
  {
    hide Apply, ApplyAll, CompensationNext;
    FindsUndo();
    AcceptCompensation(Only(UNDO_FLOW), i, e);
    Snoc(Only(UNDO_FLOW), h, e);
  }

  lemma DoneReplays()
    ensures ApplyAll(Only(UNDO_FLOW), BLANK, DONE) == Ok(At(4, 5, OVER))
  {
    hide Apply, ApplyAll;
    UndoIsValid();
    BegunReplays(UNDO_FLOW);
    var h := [Begun(UNDO_FLOW)];
    Act(h, New(UNDO_FLOW), ADMITTED_3, READY);
    assert map["a" := READY] == New(UNDO_FLOW).activities["a" := READY];
    Act(h + [ADMITTED_3], At(2, 3, READY), STARTED_4, BUSY);
    assert map["a" := READY]["a" := BUSY] == map["a" := BUSY];
    Act(h + [ADMITTED_3] + [STARTED_4], At(3, 4, BUSY), SUCCEEDED_5, OVER);
    assert map["a" := BUSY]["a" := OVER] == map["a" := OVER];
    assert h + [ADMITTED_3] + [STARTED_4] + [SUCCEEDED_5] == DONE;
  }

  lemma UndoneReplays()
    ensures ApplyAll(Only(UNDO_FLOW), BLANK, DONE + [UNDO_ADMITTED_6] + [UNDO_STARTED_7] + [UNDO_UNKNOWN_8]) ==
            Ok(UndoAt(7, 8, UNDO_LOST))
  {
    hide Apply, ApplyAll;
    DoneReplays();
    Undo(DONE, At(4, 5, OVER), UNDO_ADMITTED_6, UNDO_READY);
    assert At(4, 5, OVER).compensations["a" := UNDO_READY] == map["a" := UNDO_READY];
    Undo(DONE + [UNDO_ADMITTED_6], UndoAt(5, 6, UNDO_READY), UNDO_STARTED_7, UNDO_BUSY);
    assert map["a" := UNDO_READY]["a" := UNDO_BUSY] == map["a" := UNDO_BUSY];
    Undo(DONE + [UNDO_ADMITTED_6] + [UNDO_STARTED_7], UndoAt(6, 7, UNDO_BUSY), UNDO_UNKNOWN_8, UNDO_LOST);
    assert map["a" := UNDO_BUSY]["a" := UNDO_LOST] == map["a" := UNDO_LOST];
  }

  lemma LostReplays()
    ensures ReplayHistory(Only(UNDO_FLOW), LOST) == Ok(LOST_INSTANCE)
  {
    hide Apply, ApplyAll;
    UndoneReplays();
    AcceptLifecycle(Only(UNDO_FLOW), UndoAt(7, 8, UNDO_LOST), TERMINATED_9);
    var h := DONE + [UNDO_ADMITTED_6] + [UNDO_STARTED_7] + [UNDO_UNKNOWN_8];
    Snoc(Only(UNDO_FLOW), h, TERMINATED_9);
    assert h + [TERMINATED_9] == LOST;
  }

  lemma DoneIsValid()
    ensures ValidEvents(DONE)
  {
  }

  lemma UndoingIsValid()
    ensures ValidEvents([UNDO_ADMITTED_6, UNDO_STARTED_7, UNDO_UNKNOWN_8, TERMINATED_9])
  {
  }

  lemma LostIsValid()
    ensures ValidEvents(LOST)
  {
    hide ValidEvent;
    DoneIsValid();
    UndoingIsValid();
  }

  const RESOLVE: Command := Command(Plain("r"), Plain("p"), "y", 10)
  const RESOLUTION: ResolutionSpec := ResolutionSpec(LOST_INSTANCE, UNDO_FLOW, "a", "y", EMPTY)

  const AUDIT_10: HistoryEvent := BlankEvent(9, ID, OperatorCommandRecorded, 10).(
    idempotencyKey := Plain("r"), data := AuditDocument(OperatorResolveCompensation, Plain("p"), "y"))
  const RESOLVED_10: HistoryEvent := BlankEvent(10, ID, CompensationManuallyResolved, 10).(stepName := "a", code := "y")

  lemma AuditAccepted()
    ensures AuditEvent(RESOLVE, LOST_INSTANCE, OperatorResolveCompensation) == Some(AUDIT_10)
  {
  }

  lemma ResolvedPlans() returns (t: Transition)
    ensures PlanOn(Plain("r"), Later(LOST_INSTANCE, 10), [RESOLVED_10], []).Some?
    ensures PlanOn(Plain("r"), LOST_INSTANCE, [AUDIT_10, RESOLVED_10], []) == Some(t) 
  {
    hide ValidTransition, Plan;
    PlanAccepted(Transition(Plain("r"), ID, 9, UNDO_FLOW.Reference(), [RESOLVED_10], []));
    t := Transition(Plain("r"), ID, 8, UNDO_FLOW.Reference(), [AUDIT_10, RESOLVED_10], []);
    PairAccepted(t);
  }

  lemma ResolutionAccepted() returns (t: Transition)
    ensures NewOperatorCompensationResolution(RESOLVE, RESOLUTION) == Some(t)
  {
    hide PlanOn, AuditEvent, ValidEvent;
    FindsUndo();
    hide FindStep;
    AuditAccepted();
    t := ResolvedPlans();
    assert [AUDIT_10] + [RESOLVED_10] == [AUDIT_10, RESOLVED_10];
  }

  lemma PairAccepted(t: Transition)
    requires |t.events| == 2 && t.work == [] && ValidEvent(t.events[0]) && ValidEvent(t.events[1])
    requires ValidIdent(t.id) && ValidIdent(t.instanceID) && ValidReference(t.definition)
    requires 0 < t.expectedSequence < MAX_UINT64 && !IsStart(t.events[0].kind)
    requires ContiguousFrom(t.events, t.instanceID, t.expectedSequence + 1)
    requires t.events[0].occurredAt <= t.events[1].occurredAt
    requires t.events[0].data.Size() <= 1000 && t.events[1].data.Size() <= 1000
    ensures Plan(t.id, t.instanceID, t.expectedSequence, t.definition, t.events, t.work) == Some(t)
  {
    hide ValidEvent;
    assert t.events[..1][..0] == [];
    assert EventBytes(t.events[..1]) == t.events[0].data.Size();
  }

  lemma ResolutionIsLate()
    ensures var p := M.OperateResolution(RESOLVE, RESOLUTION);
            && M.TransitionOf(p) == NewOperatorCompensationResolution(RESOLVE, RESOLUTION)
            && M.MadeFor(p, LOST_INSTANCE) && !M.CallerGuard(p, LOST_INSTANCE)
  {
    hide NewOperatorCompensationResolution;
  }

  /**
   * A manual resolution planned after the instance was terminated is accepted,
   * and committing it makes the history unreplayable.
   */
  lemma LateResolutionBreaksHistory() returns (t: Transition)
    ensures ValidRegistry(Only(UNDO_FLOW)) && ReplayHistory(Only(UNDO_FLOW), LOST) == Ok(RESOLUTION.instance)
    ensures NewOperatorCompensationResolution(RESOLVE, RESOLUTION) == Some(t)
    ensures ReplayHistory(Only(UNDO_FLOW), LOST + t.events).Err?
  {
    hide ReplayHistory, NewOperatorCompensationResolution, ValidEvents, M.TransitionOf, M.MadeFor, M.CallerGuard;
    UndoIsValid();
    OnlyIsValid(UNDO_FLOW);
    hide ValidRegistry, ValidDefinition;
    LostReplays();
    LostIsValid();
    t := ResolutionAccepted();
    ResolutionIsLate();
    UnguardedBreaks(Only(UNDO_FLOW), LOST, LOST_INSTANCE, M.OperateResolution(RESOLVE, RESOLUTION));
  }

  // --- an outcome after a migration ---------------------------------------

  const CHILD_FLOW: Definition := Definition("k", "v", Orchestration, false, [WAIT_STEP])
  const CHILD_STEP: StepSpec := StepSpec(
    "c", StepChild, "k", CHILD_FLOW.Reference(), [], 10, 100, 100, RetryPolicy(3, 1, 5), 0, None)
  const PARENT_FLOW: Definition := Definition("d", "v", Orchestration, false, [CHILD_STEP])
  const CHILDLESS_FLOW: Definition := Definition("d", "x", Orchestration, false, [WAIT_STEP])
  const FAMILY: Registry := Registry(
    map[DefinitionKey("k", "v") := CHILD_FLOW, DefinitionKey("d", "v") := PARENT_FLOW,
        DefinitionKey("d", "x") := CHILDLESS_FLOW],
    {MigrationKey("d", "v", "x")})

  lemma FamilyIsValid()
    ensures ValidRegistry(FAMILY)
  {
    assert ValidStep(WAIT_STEP) && ValidStep(CHILD_STEP);
    assert ValidDefinition(CHILD_FLOW) && ValidDefinition(PARENT_FLOW) && ValidDefinition(CHILDLESS_FLOW);
    hide ValidDefinition;
    assert ChildPinsResolve(FAMILY, PARENT_FLOW);
  }

  const CHILD_ADMITTED: HistoryEvent := BlankEvent(2, ID, ChildStart(AttemptAdmitted), 3).(
    definition := CHILD_FLOW.Reference(), successorID := Plain("j"), stepName := "c")
  const CHILD_STARTED: HistoryEvent := BlankEvent(3, ID, ChildStart(AttemptStarted), 4).(
    successorID := Plain("j"), stepName := "c", attempt := 1, idempotencyKey := Plain("k"), dueAt := 14)
  const PAUSED_5: HistoryEvent := BlankEvent(4, ID, Lifecycle(InstancePaused), 5)
  const MIGRATED_6: HistoryEvent :=
    BlankEvent(5, ID, Lifecycle(DefinitionMigrated), 6).(definition := CHILDLESS_FLOW.Reference())
  const RESUMED_7: HistoryEvent := BlankEvent(6, ID, Lifecycle(InstanceResumed), 7)

  const CHILD_READY: ChildProgress := ChildProgress(
    "c", Plain("j"), CHILD_FLOW.Reference(), ChildIsScheduled, EMPTY, EMPTY, "", 0, NO_IDENT, 0, false)
  const CHILD_BUSY: ChildProgress :=
    CHILD_READY.(status := ChildStartRunning, attempt := 1, idempotencyKey := Plain("k"), dueAt := 14)

  function Parent(position: Uint64, time: Time, progress: ChildProgress): Instance {
    New(PARENT_FLOW).(sequence := position, updatedAt := time, children := map["c" := progress])
  }

  const MIGRATED: seq<HistoryEvent> :=
    [Begun(PARENT_FLOW), CHILD_ADMITTED, CHILD_STARTED, PAUSED_5, MIGRATED_6, RESUMED_7]
  const MIGRATED_INSTANCE: Instance := Parent(6, 7, CHILD_BUSY).(definition := CHILDLESS_FLOW.Reference())

  lemma Raise(h: seq<HistoryEvent>, i: Instance, e: HistoryEvent, next: ChildProgress)
    requires ApplyAll(FAMILY, BLANK, h) == Ok(i) && i.definition == PARENT_FLOW.Reference()
    requires Fits(i, e) && e.kind.ChildStart? && i.status.Running? && e.stepName == "c" && i.pendingOperator.NoAction?
    requires ChildStartNext(FAMILY, CHILD_STEP, Lookup(i.children, "c"), e.kind.phase, e) == Some(next)
    ensures ApplyAll(FAMILY, BLANK, h + [e]) == Ok(Advanced(i, e).(children := i.children["c" := next]))
  {
    hide Apply, ApplyAll, ChildStartNext;
    assert FindStep(PARENT_FLOW.steps, "c", StepChild) == Some(CHILD_STEP);
    AcceptChild(FAMILY, i, e);
    Snoc(FAMILY, h, e);
  }

  lemma Turns(h: seq<HistoryEvent>, i: Instance, e: HistoryEvent, j: Instance)
    requires ApplyAll(FAMILY, BLANK, h) == Ok(i) && !Terminal(i.status)
    requires Fits(i, e) && e.kind.Lifecycle? && i.pendingOperator.NoAction?
    requires ApplyLifecycle(FAMILY, i, e.kind.change, e).Ok?
    requires j == Advanced(ApplyLifecycle(FAMILY, i, e.kind.change, e).value, e)
    ensures ApplyAll(FAMILY, BLANK, h + [e]) == Ok(j)
  {
    hide Apply, ApplyAll, ApplyLifecycle;
    AcceptLifecycle(FAMILY, i, e);
    Snoc(FAMILY, h, e);
  }

  lemma ParentReplays()
    ensures ApplyAll(FAMILY, BLANK, [Begun(PARENT_FLOW)]) == Ok(New(PARENT_FLOW))
  {
    ApplyOne(FAMILY, BLANK, Begun(PARENT_FLOW));
  }

  lemma RaisedReplays()
    ensures ApplyAll(FAMILY, BLANK, [Begun(PARENT_FLOW)] + [CHILD_ADMITTED] + [CHILD_STARTED]) == Ok(Parent(3, 4, CHILD_BUSY))
  {
    hide Apply, ApplyAll;
    ParentReplays();
    var h := [Begun(PARENT_FLOW)];
    Raise(h, New(PARENT_FLOW), CHILD_ADMITTED, CHILD_READY);
    assert New(PARENT_FLOW).children["c" := CHILD_READY] == map["c" := CHILD_READY];
    Raise(h + [CHILD_ADMITTED], Parent(2, 3, CHILD_READY), CHILD_STARTED, CHILD_BUSY);
    assert map["c" := CHILD_READY]["c" := CHILD_BUSY] == map["c" := CHILD_BUSY];
  }

  lemma MigratedReplays()
    ensures ReplayHistory(FAMILY, MIGRATED) == Ok(MIGRATED_INSTANCE)
  {
    hide Apply, ApplyAll;
    RaisedReplays();
    var h := [Begun(PARENT_FLOW)] + [CHILD_ADMITTED] + [CHILD_STARTED];
    var paused := Parent(4, 5, CHILD_BUSY).(status := Paused);
    var migrated := paused.(sequence := 5, updatedAt := 6, definition := CHILDLESS_FLOW.Reference());
    assert !Terminal(Running) && !Terminal(Paused);
    Turns(h, Parent(3, 4, CHILD_BUSY), PAUSED_5, paused);
    Turns(h + [PAUSED_5], paused, MIGRATED_6, migrated);
    Turns(h + [PAUSED_5] + [MIGRATED_6], migrated, RESUMED_7, MIGRATED_INSTANCE);
    assert h + [PAUSED_5] + [MIGRATED_6] + [RESUMED_7] == MIGRATED;
  }

  lemma MigratedIsValid()
    ensures ValidEvents(MIGRATED)
  {
  }

  const CREATED: ChildOutcomeSpec := ChildOutcomeSpec(
    Plain("o"), MIGRATED_INSTANCE, CHILDLESS_FLOW, "c", Plain("j"), 1, 8, Outcome(OutcomeSucceeded, "", false, EMPTY))

  lemma CreatedAccepted() returns (t: Transition)
    ensures NewChildStartAttemptOutcome(CREATED) == Some(t)
  {
    hide ValidTransition, Plan;
    var e := EventOn(MIGRATED_INSTANCE, ChildStart(AttemptSucceeded), 8).(
      successorID := Plain("j"), stepName := "c", attempt := 1);
    t := Transition(Plain("o"), ID, 6, CHILDLESS_FLOW.Reference(), [e], []);
    PlanAccepted(t);
  }

  /**
   * A creation outcome planned after a migration removed the child step is
   * accepted, and committing it makes the history unreplayable.
   */
  lemma MigratedCreationBreaksHistory() returns (t: Transition)
    ensures ValidRegistry(FAMILY) && ReplayHistory(FAMILY, MIGRATED) == Ok(CREATED.instance)
    ensures NewChildStartAttemptOutcome(CREATED) == Some(t)
    ensures ReplayHistory(FAMILY, MIGRATED + t.events).Err?
  {
    hide ReplayHistory, NewChildStartAttemptOutcome, ValidEvents, ValidRegistry;
    FamilyIsValid();
    MigratedReplays();
    MigratedIsValid();
    t := CreatedAccepted();
    assert FindStep(CHILDLESS_FLOW.steps, "c", StepChild) == None;
    UnguardedBreaks(FAMILY, MIGRATED, MIGRATED_INSTANCE, M.ReportChildStart(CREATED));
  }
}
