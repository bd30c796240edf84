/**
 * Audited operator plans. A plan's two events replay together or not at all:
 * the audit alone leaves a history replay refuses.
 */
module OperatorSoundness {
  import opened Basics
  import opened Definitions
  import opened Backoff
  import opened Events
  import opened Replay
  import opened ReplayFrames
  import opened Transitions
  import opened Planners
  import opened Acceptance
  import opened PlannerSoundness

  /** The instance with the audit event applied and its action still due. */
  function Pending(i: Instance, audit: HistoryEvent): Instance
    requires DecodeOperatorAudit(audit.data).Some?
  {
    Advanced(i, audit).(pendingOperator := audit.data.action, operatorActions := i.operatorActions + [RecordOf(audit)])
  }

  /** The instance two events later with the command on its audit trail. */
  function Audited(i: Instance, c: Command, action: OperatorAction): Instance
    requires i.sequence <= MAX_UINT64 - 2
  {
    i.(sequence := i.sequence + 2, updatedAt := c.at,
       operatorActions := i.operatorActions + [OperatorRecord(c.commandID, action, c.actor, c.reason, c.at)])
  }

  lemma AuditThenAction(registry: Registry, i: Instance, c: Command, action: OperatorAction, e: HistoryEvent)
    requires Settled(registry, i) && AuditEvent(c, i, action).Some? && !action.NoAction?
    ensures var audit := AuditEvent(c, i, action).value;
            && ApplyAll(registry, i, [audit, e]) ==
               (if Terminal(i.status) then Err(InvalidTransition) else Apply(registry, Pending(i, audit), e))
            && DecodeOperatorAudit(audit.data).Some?
            && RecordOf(audit) == OperatorRecord(c.commandID, action, c.actor, c.reason, c.at)
            && Apply(registry, i, audit) == (if Terminal(i.status) then Err(InvalidTransition) else Ok(Pending(i, audit)))
  {
    hide Apply, Terminal, DecodeOperatorAudit;
    var audit := AuditEvent(c, i, action).value;
    ApplyTwo(registry, i, audit, e);
    AcceptAudit(registry, i, audit);
    if Terminal(i.status) {
      RefusesTerminal(registry, i, audit);
    }
  }

  lemma RefusesTerminal(registry: Registry, i: Instance, e: HistoryEvent)
    requires Fits(i, e) && Terminal(i.status)
    ensures Apply(registry, i, e) == Err(InvalidTransition)
  {
    hide Dispatch;
  }

  /**
   * The pair is atomic for replay: after any replayable history, the audit
   * alone is applied but the resulting history does not replay.
   */
  lemma AuditAloneDoesNotReplay(registry: Registry, h: seq<HistoryEvent>, c: Command, action: OperatorAction)
    requires ValidEvents(h) && |h| < MAX_UINT64 && ReplayHistory(registry, h).Ok? && !action.NoAction?
    requires AuditEvent(c, ReplayHistory(registry, h).value, action).Some?
    ensures ReplayHistory(registry, h + [AuditEvent(c, ReplayHistory(registry, h).value, action).value]) ==
            Err(InvalidTransition)
  {
    hide Apply, Terminal, DecodeOperatorAudit, ValidEvent, AuditEvent;
    var i := ReplayHistory(registry, h).value;
    var audit := AuditEvent(c, i, action).value;
    ReplayedIsSettled(registry, h);
    AuditThenAction(registry, i, c, action, audit);
    ApplyAllConcat(registry, BLANK, h, [audit]);
    ApplyOne(registry, i, audit);
    AuditDecodes(audit);
  }

  lemma LifecycleCommandSound(registry: Registry, c: Command, i: Instance, action: OperatorAction)
    requires Settled(registry, i) && NewOperatorLifecycleCommand(c, i, action).Some?
    ensures i.sequence <= MAX_UINT64 - 2
    ensures Replayed(registry, i, NewOperatorLifecycleCommand(c, i, action)) ==
            Ok(var j := Audited(i, c, action);
               match action
               case OperatorPause => j.(status := Paused)
               case OperatorResume => j.(status := Running)
               case OperatorCancel => j.(status := Cancelling)
               case _ => j.(status := Terminated, result := EMPTY))
  {
    hide Apply, ValidTransition, ValidEvent, DecodeOperatorAudit;
    var t := NewOperatorLifecycleCommand(c, i, action).value;
    var audit, e := t.events[0], t.events[1];
    assert t.events == [audit, e];
    AuditThenAction(registry, i, c, action, e);
    AcceptLifecycle(registry, Pending(i, audit), e);
  }

  /** An audited retry, like the planner it wraps, replays exactly on a running instance. */
  lemma OperatorRetryExactly(registry: Registry, c: Command, s: RetrySpec)
    requires Settled(registry, s.instance) && NewOperatorActivityRetry(c, s).Some?
    ensures Replayed(registry, s.instance, NewOperatorActivityRetry(c, s)).Ok? <==> s.instance.status.Running?
    ensures s.instance.status.Running? ==>
              && s.instance.sequence <= MAX_UINT64 - 2 && s.stepName in s.instance.activities
              && FindStep(s.definition.steps, s.stepName, StepActivity).Some?
              && var progress := s.instance.activities[s.stepName];
                 var policy := FindStep(s.definition.steps, s.stepName, StepActivity).value.retry;
                 Replayed(registry, s.instance, NewOperatorActivityRetry(c, s)) ==
                 Ok(Audited(s.instance, c, OperatorRetryActivity).(
                      activities := s.instance.activities[s.stepName := progress.(
                        status := ActivityRetryWaiting, dueAt := c.at + RetryDelay(policy, progress.attempt))]))
  {
    hide Apply, ValidTransition, ValidEvent, DecodeOperatorAudit, RetryDelay, Terminal;
    var t, i := NewOperatorActivityRetry(c, s).value, s.instance;
    var audit, e := t.events[0], t.events[1];
    assert t.events == [audit, e];
    PinnedSteps(registry, i, s.definition);
    RunningIsLive(i.status);
    AuditThenAction(registry, i, c, OperatorRetryActivity, e);
    AcceptActivity(registry, Pending(i, audit), e);
  }

  lemma OperatorCompensationSound(registry: Registry, c: Command, s: ScheduleSpec)
    requires Settled(registry, s.instance) && NewOperatorCompensation(c, s).Some?
    ensures s.instance.sequence <= MAX_UINT64 - 2
    ensures Replayed(registry, s.instance, NewOperatorCompensation(c, s)) ==
            Ok(Audited(s.instance, c, OperatorCompensate).(
                 compensations := s.instance.compensations[s.stepName := CompensationProgress(
                   s.stepName, CompensationReady, s.instance.sequence + 2, 0, NO_IDENT, ZERO_TIME, s.input, EMPTY, "",
                   false)]))
  {
    hide Apply, ValidTransition, ValidEvent, DecodeOperatorAudit, Terminal;
    var t, i := NewOperatorCompensation(c, s).value, s.instance;
    var audit, e := t.events[0], t.events[1];
    assert t.events == [audit, e];
    PinnedSteps(registry, i, s.definition);
    RunningIsLive(i.status);
    AuditThenAction(registry, i, c, OperatorCompensate, e);
    AcceptCompensation(registry, Pending(i, audit), e);
  }

  /** A manual resolution replays exactly when the instance has not ended meanwhile; it never reports success. */
  lemma ResolutionExactly(registry: Registry, c: Command, s: ResolutionSpec)
    requires Settled(registry, s.instance) && NewOperatorCompensationResolution(c, s).Some?
    ensures Replayed(registry, s.instance, NewOperatorCompensationResolution(c, s)).Ok? <==> !Terminal(s.instance.status)
    ensures !Terminal(s.instance.status) ==>
              && s.instance.sequence <= MAX_UINT64 - 2 && s.stepName in s.instance.compensations
              && Replayed(registry, s.instance, NewOperatorCompensationResolution(c, s)) ==
                 Ok(Audited(s.instance, c, OperatorResolveCompensation).(
                      compensations := s.instance.compensations[s.stepName :=
                        s.instance.compensations[s.stepName].(
                          status := CompensationResolved, result := s.evidence, code := s.code, retryable := false)]))
  {
    hide Apply, ValidTransition, ValidEvent, DecodeOperatorAudit, Terminal;
    var t, i := NewOperatorCompensationResolution(c, s).value, s.instance;
    var audit, e := t.events[0], t.events[1];
    assert t.events == [audit, e];
    PinnedSteps(registry, i, s.definition);
    AuditThenAction(registry, i, c, OperatorResolveCompensation, e);
    AcceptCompensation(registry, Pending(i, audit), e);
  }

  /** With unique names, a name has one kind. */
  lemma OneKindPerName(steps: seq<StepSpec>, name: string, k: StepKind, l: StepKind)
    requires UniqueNames(steps) && FindStep(steps, name, k).Some? && FindStep(steps, name, l).Some?
    ensures k == l
  {
    var x, y := FindStep(steps, name, k).value, FindStep(steps, name, l).value;
    var a :| 0 <= a < |steps| && steps[a] == x;
    var b :| 0 <= b < |steps| && steps[b] == y;
    assert a < b ==> steps[a].name != steps[b].name;
    assert b < a ==> steps[b].name != steps[a].name;
  }

  /** In a validated definition an approval's name is not also a signal's. */
  lemma ApprovalIsNoSignal(registry: Registry, d: Definition, name: string)
    requires ValidRegistry(registry) && DefinitionKey(d.name, d.version) in registry.definitions
    requires registry.definitions[DefinitionKey(d.name, d.version)] == d
    requires FindStep(d.steps, name, StepApproval).Some?
    ensures FindStep(d.steps, name, StepSignal).None?
  {
    hide ValidControlFlow, BranchesResolve, ValidStep, StableName, ChildPinsResolve, FindStep, UniqueNames;
    assert ValidDefinition(d);
    if FindStep(d.steps, name, StepSignal).Some? {
      OneKindPerName(d.steps, name, StepSignal, StepApproval);
    }
  }

  /** An approval replays exactly when it is the first for its step on a running or paused instance. */
  lemma ApprovalExactly(registry: Registry, c: Command, s: ApprovalSpec)
    requires ValidRegistry(registry) && Settled(registry, s.instance) && NewOperatorApproval(c, s).Some?
    ensures Replayed(registry, s.instance, NewOperatorApproval(c, s)).Ok? <==>
            (s.instance.status.Running? || s.instance.status.Paused?) && s.stepName !in s.instance.signals
    ensures Replayed(registry, s.instance, NewOperatorApproval(c, s)).Ok? ==>
              && s.instance.sequence <= MAX_UINT64 - 2
              && Replayed(registry, s.instance, NewOperatorApproval(c, s)) ==
                 Ok(Audited(s.instance, c, OperatorApprove).(
                      signals := s.instance.signals[s.stepName :=
                        SignalProgress(s.stepName, c.commandID, c.at, s.payload)]))
  {
    hide Apply, ValidTransition, ValidEvent, DecodeOperatorAudit, Terminal, ValidRegistry;
    var t, i := NewOperatorApproval(c, s).value, s.instance;
    var audit, e := t.events[0], t.events[1];
    assert t.events == [audit, e];
    PinnedSteps(registry, i, s.definition);
    ApprovalIsNoSignal(registry, s.definition, s.stepName);
    RunningIsLive(i.status);
    AuditThenAction(registry, i, c, OperatorApprove, e);
    AcceptSignal(registry, Pending(i, audit), e);
  }
}
