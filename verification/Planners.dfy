/**
 * The transition planners: guard chains that turn a replayed instance and a
 * request into one atomic plan. `None` is the planner's error.
 */
module Planners {
  import opened Basics
  import opened Definitions
  import opened Backoff
  import opened Events
  import opened Replay
  import opened Transitions

  datatype OutcomeKind = OutcomeSucceeded | OutcomeFailed | OutcomeUnknown

  /** Result of one external attempt. */
  datatype Outcome = Outcome(kind: OutcomeKind, code: string, retryable: bool, data: Data)

  predicate ValidOutcome(o: Outcome) {
    && o.data.Size() <= MAX_PAYLOAD_BYTES
    && match o.kind
       case OutcomeSucceeded => o.code == "" && !o.retryable
       case OutcomeFailed => StableName(o.code)
       case OutcomeUnknown => StableName(o.code) && !o.retryable
  }

  function OutcomePhase(kind: OutcomeKind): AttemptKind {
    match kind
    case OutcomeSucceeded => AttemptSucceeded
    case OutcomeFailed => AttemptFailed
    case OutcomeUnknown => AttemptUnknown
  }

  datatype Routing = Routing(tenantID: Ident, correlationID: Ident)

  /** Next event of an instance. */
  function EventOn(i: Instance, kind: EventKind, at: Time): HistoryEvent {
    BlankEvent(Next64(i.sequence), i.id, kind, at)
  }

  function PlanOn(id: Ident, i: Instance, events: seq<HistoryEvent>, work: seq<PendingWork>): (plan: Option<Transition>)
    ensures plan.Some? ==> plan.value == Transition(id, i.id, i.sequence, i.definition, events, work)
    ensures plan.Some? ==> ValidTransition(plan.value) && ValidEvents(events)
    ensures plan.Some? ==> forall k | 0 <= k < |work| :: ValidWork(work[k])
  {
    Plan(id, i.id, i.sequence, i.definition, events, work)
  }

  // --- activities ---------------------------------------------------------

  /** First admission of an activity or a compensation. */
  datatype ScheduleSpec = ScheduleSpec(
    transitionID: Ident, workID: Ident, instance: Instance, definition: Definition, stepName: string, attempt: Uint32,
    key: Ident, at: Time, deadline: Time, input: Data, routing: Routing)

  function NewActivitySchedule(s: ScheduleSpec): Option<Transition> {
    var i := s.instance;
    var step := FindStep(s.definition.steps, s.stepName, StepActivity);
    if step.None? || s.attempt != 1 || s.input.Size() > step.value.inputLimit || !ValidIdent(s.key) ||
       !i.status.Running? || s.definition.Reference() != i.definition || s.stepName in i.activities || s.at < i.updatedAt
    then None
    else
      var e := EventOn(i, Activity(AttemptAdmitted), s.at).(stepName := s.stepName, data := s.input);
      var w := PendingWork(s.workID, WorkActivity, i.id, e.sequence, s.at, s.deadline,
                           DispatchDocument(s.stepName, s.attempt, s.key), s.routing.tenantID, s.routing.correlationID);
      PlanOn(s.transitionID, i, [e], [w])
  }

  /** An attempt start made under a lease. */
  datatype StartSpec = StartSpec(
    transitionID: Ident, lease: WorkLease, instance: Instance, definition: Definition, at: Time)

  /** The start lies inside its claim window and within the work's own bounds. */
  predicate InsideLease(lease: WorkLease, at: Time, dueAt: Time) {
    lease.work.availableAt <= at && at < lease.work.deadline && dueAt <= lease.work.deadline &&
    lease.claimedAt <= at && at < lease.expiresAt
  }

  function NewActivityAttemptStart(s: StartSpec): Option<Transition> {
    var i, work := s.instance, s.lease.work;
    var dispatch := DecodeDispatch(work.payload);
    if !ValidLease(s.lease) || !work.kind.WorkActivity? || dispatch.None? || i.sequence < work.sequence ||
       work.instanceID != i.id
    then None
    else
      var name, attempt := dispatch.value.stepName, dispatch.value.attempt;
      var step := FindStep(s.definition.steps, name, StepActivity);
      if step.None? || attempt > step.value.retry.maxAttempts || name !in i.activities ||
         s.definition.Reference() != i.definition || !i.status.Running?
      then None
      else
        var progress := i.activities[name];
        var dueAt := s.at + step.value.timeout;
        if (!progress.status.ActivityReady? && !progress.status.ActivityRetryWaiting?) ||
           attempt != Next32(progress.attempt) || !InsideLease(s.lease, s.at, dueAt) || s.at < i.updatedAt ||
           (progress.status.ActivityRetryWaiting? && s.at < progress.dueAt)
        then None
        else
          var e := EventOn(i, Activity(AttemptStarted), s.at).(
            stepName := name, attempt := attempt, idempotencyKey := dispatch.value.key, dueAt := dueAt);
          PlanOn(s.transitionID, i, [e], [])
  }

  datatype OutcomeSpec = OutcomeSpec(
    transitionID: Ident, instance: Instance, definition: Definition, stepName: string, attempt: Uint32, at: Time,
    outcome: Outcome)

  function NewActivityAttemptOutcome(s: OutcomeSpec): Option<Transition> {
    var i := s.instance;
    var step := FindStep(s.definition.steps, s.stepName, StepActivity);
    if step.None? || s.stepName !in i.activities || s.definition.Reference() != i.definition ||
       !i.activities[s.stepName].status.ActivityRunning? || i.activities[s.stepName].attempt != s.attempt ||
       !ValidOutcome(s.outcome) || s.outcome.data.Size() > step.value.resultLimit || s.at < i.updatedAt
    then None
    else
      var e := EventOn(i, Activity(OutcomePhase(s.outcome.kind)), s.at).(
        stepName := s.stepName, attempt := s.attempt, code := s.outcome.code, retryable := s.outcome.retryable,
        data := s.outcome.data);
      PlanOn(s.transitionID, i, [e], [])
  }

  datatype RetrySpec = RetrySpec(
    transitionID: Ident, workID: Ident, instance: Instance, definition: Definition, stepName: string, key: Ident,
    at: Time, deadline: Time, routing: Routing)

  function NewActivityRetry(s: RetrySpec): Option<Transition> {
    var i := s.instance;
    var step := FindStep(s.definition.steps, s.stepName, StepActivity);
    if step.None? || s.stepName !in i.activities || s.definition.Reference() != i.definition ||
       !i.activities[s.stepName].status.ActivityFailed? || !i.activities[s.stepName].retryable ||
       i.activities[s.stepName].attempt >= step.value.retry.maxAttempts || !ValidIdent(s.key) || s.at < i.updatedAt
    then None
    else
      var attempt := i.activities[s.stepName].attempt;
      var dueAt := s.at + RetryDelay(step.value.retry, attempt);
      var e := EventOn(i, Activity(AttemptRetry), s.at).(stepName := s.stepName, attempt := attempt, dueAt := dueAt);
      var w := PendingWork(s.workID, WorkActivity, i.id, e.sequence, dueAt, s.deadline,
                           DispatchDocument(s.stepName, Next32(attempt), s.key), s.routing.tenantID, s.routing.correlationID);
      PlanOn(s.transitionID, i, [e], [w])
  }

  // --- compensations ------------------------------------------------------

  /** The compensation policy of an activity step. */
  function CompensationPolicy(steps: seq<StepSpec>, name: string): Option<CompensationSpec> {
    var step := FindStep(steps, name, StepActivity);
    if step.None? then None else step.value.compensation
  }

  predicate Compensable(status: InstanceStatus) {
    status.Running? || status.Cancelling?
  }

  function NewCompensationSchedule(s: ScheduleSpec): Option<Transition> {
    var i := s.instance;
    var step := FindStep(s.definition.steps, s.stepName, StepActivity);
    if step.None? || step.value.compensation.None? || !Compensable(i.status) ||
       s.definition.Reference() != i.definition || s.stepName !in i.activities ||
       !i.activities[s.stepName].status.ActivitySucceeded? || s.stepName in i.compensations || s.attempt != 1 ||
       s.input.Size() > step.value.inputLimit || !ValidIdent(s.key) || s.at < i.updatedAt
    then None
    else
      var e := EventOn(i, Compensation(AttemptAdmitted), s.at).(stepName := s.stepName, data := s.input);
      var w := PendingWork(s.workID, WorkCompensation, i.id, e.sequence, s.at, s.deadline,
                           DispatchDocument(s.stepName, s.attempt, s.key), s.routing.tenantID, s.routing.correlationID);
      PlanOn(s.transitionID, i, [e], [w])
  }

  function NewCompensationAttemptStart(s: StartSpec): Option<Transition> {
    var i, work := s.instance, s.lease.work;
    var dispatch := DecodeDispatch(work.payload);
    if !ValidLease(s.lease) || !work.kind.WorkCompensation? || dispatch.None? || i.sequence < work.sequence ||
       work.instanceID != i.id
    then None
    else
      var name, attempt := dispatch.value.stepName, dispatch.value.attempt;
      var policy := CompensationPolicy(s.definition.steps, name);
      if policy.None? || s.definition.Reference() != i.definition || !Compensable(i.status) || name !in i.compensations
      then None
      else
        var progress := i.compensations[name];
        var dueAt := s.at + policy.value.timeout;
        if (!progress.status.CompensationReady? && !progress.status.CompensationRetryWaiting?) ||
           attempt != Next32(progress.attempt) || attempt > policy.value.retry.maxAttempts ||
           !InsideLease(s.lease, s.at, dueAt) || s.at < i.updatedAt ||
           (progress.status.CompensationRetryWaiting? && s.at < progress.dueAt)
        then None
        else
          var e := EventOn(i, Compensation(AttemptStarted), s.at).(
            stepName := name, attempt := attempt, idempotencyKey := dispatch.value.key, dueAt := dueAt);
          PlanOn(s.transitionID, i, [e], [])
  }

  function NewCompensationAttemptOutcome(s: OutcomeSpec): Option<Transition> {
    var i := s.instance;
    var policy := CompensationPolicy(s.definition.steps, s.stepName);
    if policy.None? || s.stepName !in i.compensations || s.definition.Reference() != i.definition ||
       !i.compensations[s.stepName].status.CompensationRunning? || i.compensations[s.stepName].attempt != s.attempt ||
       !ValidOutcome(s.outcome) || s.outcome.data.Size() > policy.value.resultLimit || s.at < i.updatedAt
    then None
    else
      var e := EventOn(i, Compensation(OutcomePhase(s.outcome.kind)), s.at).(
        stepName := s.stepName, attempt := s.attempt, code := s.outcome.code, retryable := s.outcome.retryable,
        data := s.outcome.data);
      PlanOn(s.transitionID, i, [e], [])
  }

  function NewCompensationRetry(s: RetrySpec): Option<Transition> {
    var i := s.instance;
    var policy := CompensationPolicy(s.definition.steps, s.stepName);
    if policy.None? || s.stepName !in i.compensations || s.definition.Reference() != i.definition ||
       !Compensable(i.status) || !i.compensations[s.stepName].status.CompensationFailed? ||
       !i.compensations[s.stepName].retryable ||
       i.compensations[s.stepName].attempt >= policy.value.retry.maxAttempts || !ValidIdent(s.key) || s.at < i.updatedAt
    then None
    else
      var attempt := i.compensations[s.stepName].attempt;
      var dueAt := s.at + RetryDelay(policy.value.retry, attempt);
      var e := EventOn(i, Compensation(AttemptRetry), s.at).(stepName := s.stepName, attempt := attempt, dueAt := dueAt);
      var w := PendingWork(s.workID, WorkCompensation, i.id, e.sequence, dueAt, s.deadline,
                           DispatchDocument(s.stepName, Next32(attempt), s.key), s.routing.tenantID, s.routing.correlationID);
      PlanOn(s.transitionID, i, [e], [w])
  }

  // --- children -----------------------------------------------------------

  datatype ChildScheduleSpec = ChildScheduleSpec(
    transitionID: Ident, workID: Ident, childID: Ident, instance: Instance, definition: Definition, stepName: string,
    at: Time, deadline: Time, input: Data, routing: Routing)

  function NewChildSchedule(s: ChildScheduleSpec): Option<Transition> {
    var i := s.instance;
    var step := FindStep(s.definition.steps, s.stepName, StepChild);
    if step.None? || !i.status.Running? || s.definition.Reference() != i.definition ||
       s.input.Size() > step.value.inputLimit || !ValidIdent(s.childID) || s.at < i.updatedAt || s.stepName in i.children
    then None
    else
      var pin := step.value.childDefinition;
      var e := EventOn(i, ChildStart(AttemptAdmitted), s.at).(
        definition := pin, successorID := s.childID, stepName := s.stepName, data := s.input);
      var w := PendingWork(s.workID, WorkChild, i.id, e.sequence, s.at, s.deadline,
                           ChildDocument(s.stepName, s.childID, pin, 1, s.childID), s.routing.tenantID,
                           s.routing.correlationID);
      PlanOn(s.transitionID, i, [e], [w])
  }

  function NewChildStartAttempt(s: StartSpec): Option<Transition> {
    var i, work := s.instance, s.lease.work;
    var dispatch := DecodeChildDispatch(work.payload);
    if !ValidLease(s.lease) || !work.kind.WorkChild? || dispatch.None? || work.instanceID != i.id ||
       !i.status.Running? || s.definition.Reference() != i.definition || i.sequence < work.sequence
    then None
    else
      var name, attempt := dispatch.value.stepName, dispatch.value.attempt;
      var step := FindStep(s.definition.steps, name, StepChild);
      if step.None? || name !in i.children then None
      else
        var progress := i.children[name];
        var dueAt := s.at + step.value.timeout;
        if progress.childID != dispatch.value.childID || progress.definition != dispatch.value.definition ||
           (!progress.status.ChildIsScheduled? && !progress.status.ChildRetryWaiting?) ||
           attempt != Next32(progress.attempt) || attempt > step.value.retry.maxAttempts ||
           s.at < work.availableAt || dueAt > work.deadline || s.at < s.lease.claimedAt || s.at >= s.lease.expiresAt ||
           s.at < i.updatedAt || (progress.status.ChildRetryWaiting? && s.at < progress.dueAt)
        then None
        else
          var e := EventOn(i, ChildStart(AttemptStarted), s.at).(
            successorID := progress.childID, stepName := name, attempt := attempt,
            idempotencyKey := dispatch.value.key, dueAt := dueAt);
          PlanOn(s.transitionID, i, [e], [])
  }

  datatype ChildOutcomeSpec = ChildOutcomeSpec(
    transitionID: Ident, instance: Instance, definition: Definition, stepName: string, childID: Ident, attempt: Uint32,
    at: Time, outcome: Outcome)

  /** Child starts report no data. */
  predicate ValidStartOutcome(o: Outcome) {
    ValidOutcome(o) && o.data == EMPTY
  }

  function NewChildStartAttemptOutcome(s: ChildOutcomeSpec): Option<Transition> {
    var i := s.instance;
    if !i.status.Running? || s.definition.Reference() != i.definition || s.stepName !in i.children ||
       !i.children[s.stepName].status.ChildStartRunning? || i.children[s.stepName].childID != s.childID ||
       i.children[s.stepName].attempt != s.attempt || !ValidStartOutcome(s.outcome) || s.at < i.updatedAt
    then None
    else
      var e := EventOn(i, ChildStart(OutcomePhase(s.outcome.kind)), s.at).(
        successorID := s.childID, stepName := s.stepName, attempt := s.attempt, code := s.outcome.code,
        retryable := s.outcome.retryable);
      PlanOn(s.transitionID, i, [e], [])
  }

  /** The key of a retried child start is derived from the new work's identity. */
  function NewChildStartRetry(s: RetrySpec): Option<Transition> {
    var i := s.instance;
    var step := FindStep(s.definition.steps, s.stepName, StepChild);
    if step.None? || !i.status.Running? || s.definition.Reference() != i.definition || s.stepName !in i.children ||
       !i.children[s.stepName].status.ChildStartHasFailed? || !i.children[s.stepName].retryable ||
       i.children[s.stepName].attempt >= step.value.retry.maxAttempts || s.at < i.updatedAt
    then None
    else
      var progress := i.children[s.stepName];
      var dueAt := s.at + RetryDelay(step.value.retry, progress.attempt);
      var e := EventOn(i, ChildStart(AttemptRetry), s.at).(
        successorID := progress.childID, stepName := s.stepName, attempt := progress.attempt, dueAt := dueAt);
      var w := PendingWork(s.workID, WorkChild, i.id, e.sequence, dueAt, s.deadline,
                           ChildDocument(s.stepName, progress.childID, progress.definition, Next32(progress.attempt),
                                         Hashed(ActivityProcessor, "child-start-key", s.workID)),
                           s.routing.tenantID, s.routing.correlationID);
      PlanOn(s.transitionID, i, [e], [w])
  }

  /** A child's own terminal result; an empty failure code means success. */
  datatype ChildResultSpec = ChildResultSpec(
    transitionID: Ident, instance: Instance, definition: Definition, stepName: string, childID: Ident, at: Time,
    result: Data, failureCode: string)

  function NewChildOutcome(s: ChildResultSpec): Option<Transition> {
    var i := s.instance;
    var step := FindStep(s.definition.steps, s.stepName, StepChild);
    if step.None? || s.stepName !in i.children || !ChildOutcomeAllowed(i.children[s.stepName].status) ||
       i.children[s.stepName].childID != s.childID || !i.status.Running? || s.definition.Reference() != i.definition ||
       s.result.Size() > step.value.resultLimit || s.at < i.updatedAt ||
       (s.failureCode != "" && !StableName(s.failureCode))
    then None
    else
      var e := EventOn(i, if s.failureCode == "" then ChildCompleted else ChildFailed, s.at).(
        successorID := s.childID, stepName := s.stepName, code := s.failureCode, data := s.result);
      PlanOn(s.transitionID, i, [e], [])
  }

  // --- waits --------------------------------------------------------------

  /** Timer and signal plans take a cursor and a definition instead of an instance. */
  datatype TimerScheduleSpec = TimerScheduleSpec(
    transitionID: Ident, workID: Ident, instanceID: Ident, expected: Uint64, definition: Definition, stepName: string,
    at: Time, deadline: Time, routing: Routing)

  function NewTimerSchedule(s: TimerScheduleSpec): Option<Transition> {
    var step := FindStep(s.definition.steps, s.stepName, StepTimer);
    if step.None? || s.at == ZERO_TIME then None
    else
      var dueAt := s.at + step.value.timeout;
      var e := BlankEvent(Next64(s.expected), s.instanceID, TimerScheduled, s.at).(stepName := s.stepName, dueAt := dueAt);
      var w := PendingWork(s.workID, WorkTimer, s.instanceID, e.sequence, dueAt, s.deadline, Text(s.stepName),
                           s.routing.tenantID, s.routing.correlationID);
      Plan(s.transitionID, s.instanceID, s.expected, s.definition.Reference(), [e], [w])
  }

  datatype TimerFireSpec = TimerFireSpec(
    transitionID: Ident, lease: WorkLease, expected: Uint64, definition: Definition, at: Time)

  function NewTimerFire(s: TimerFireSpec): Option<Transition> {
    var work := s.lease.work;
    var name := work.payload.AsName();
    if !ValidLease(s.lease) || !work.kind.WorkTimer? || FindStep(s.definition.steps, name, StepTimer).None? ||
       s.expected < work.sequence || s.at < work.availableAt || s.at >= work.deadline
    then None
    else
      var e := BlankEvent(Next64(s.expected), work.instanceID, TimerFired, s.at).(stepName := name);
      Plan(s.transitionID, work.instanceID, s.expected, s.definition.Reference(), [e], [])
  }

  datatype SignalSpec = SignalSpec(
    signalID: Ident, instanceID: Ident, expected: Uint64, definition: Definition, stepName: string, at: Time,
    payload: Data)

  /** The signal's identity is also the transition's. */
  function NewSignalAcceptance(s: SignalSpec): Option<Transition> {
    var step := FindStep(s.definition.steps, s.stepName, StepSignal);
    if step.None? || s.payload.Size() > step.value.inputLimit then None
    else
      var e := BlankEvent(Next64(s.expected), s.instanceID, SignalReceived, s.at).(
        stepName := s.stepName, idempotencyKey := s.signalID, data := s.payload);
      Plan(s.signalID, s.instanceID, s.expected, s.definition.Reference(), [e], [])
  }

  // --- operators ----------------------------------------------------------

  datatype Command = Command(commandID: Ident, actor: Ident, reason: string, at: Time)

  predicate LifecycleAllowed(status: InstanceStatus, action: OperatorAction) {
    match action
    case OperatorPause => status.Running?
    case OperatorResume => status.Paused?
    case OperatorCancel => status.Running? || status.Paused?
    case OperatorTerminate => status.Running? || status.Paused? || status.Cancelling?
    case _ => false
  }

  function LifecycleOf(action: OperatorAction): LifecycleKind {
    match action
    case OperatorPause => InstancePaused
    case OperatorResume => InstanceResumed
    case OperatorCancel => CancellationRequested
    case _ => InstanceTerminated
  }

  /** The audit event of a command, when the command itself is acceptable. */
  function AuditEvent(c: Command, i: Instance, action: OperatorAction): (audit: Option<HistoryEvent>)
    ensures audit.Some? ==>
              audit.value.kind.OperatorCommandRecorded? && audit.value.sequence == i.sequence + 1 &&
              audit.value.instanceID == i.id && audit.value.occurredAt == c.at && c.at >= i.updatedAt &&
              i.sequence <= MAX_UINT64 - 2 && DecodeOperatorAudit(audit.value.data).Some? &&
              audit.value.data.action == action && audit.value.idempotencyKey == c.commandID
  {
    var document := AuditDocument(action, c.actor, c.reason);
    if !ValidIdent(c.commandID) || c.at == ZERO_TIME || c.at < i.updatedAt || i.sequence > MAX_UINT64 - 2 ||
       !ValidIdent(i.id) || !ValidReference(i.definition) || DecodeOperatorAudit(document).None?
    then None
    else Some(EventOn(i, OperatorCommandRecorded, c.at).(idempotencyKey := c.commandID, data := document))
  }

  /** The instance one event later. */
  function Later(i: Instance, at: Time): Instance
    requires i.sequence < MAX_UINT64
  {
    i.(sequence := i.sequence + 1, updatedAt := at)
  }

  function AuditedPlan(c: Command, i: Instance, audit: HistoryEvent, action: Option<Transition>): Option<Transition> {
    if action.None? then None
    else PlanOn(c.commandID, i, [audit] + action.value.events, action.value.work)
  }

  function NewOperatorLifecycleCommand(c: Command, i: Instance, action: OperatorAction): Option<Transition> {
    var audit := AuditEvent(c, i, action);
    if !LifecycleAllowed(i.status, action) || audit.None? then None
    else
      var e := EventOn(Later(i, c.at), Lifecycle(LifecycleOf(action)), c.at);
      PlanOn(c.commandID, i, [audit.value, e], [])
  }

  function NewOperatorActivityRetry(c: Command, s: RetrySpec): Option<Transition> {
    var audit := AuditEvent(c, s.instance, OperatorRetryActivity);
    if audit.None? then None
    else AuditedPlan(c, s.instance, audit.value,
                     NewActivityRetry(s.(transitionID := c.commandID, instance := Later(s.instance, c.at),
                                         at := c.at)))
  }

  function NewOperatorCompensation(c: Command, s: ScheduleSpec): Option<Transition> {
    var audit := AuditEvent(c, s.instance, OperatorCompensate);
    if audit.None? then None
    else AuditedPlan(c, s.instance, audit.value,
                     NewCompensationSchedule(s.(transitionID := c.commandID, instance := Later(s.instance, c.at),
                                                at := c.at)))
  }

  datatype ResolutionSpec = ResolutionSpec(
    instance: Instance, definition: Definition, stepName: string, code: string, evidence: Data)

  function NewOperatorCompensationResolution(c: Command, s: ResolutionSpec): Option<Transition> {
    var i := s.instance;
    var audit := AuditEvent(c, i, OperatorResolveCompensation);
    var policy := CompensationPolicy(s.definition.steps, s.stepName);
    if audit.None? || s.definition.Reference() != i.definition || policy.None? || s.stepName !in i.compensations ||
       (!i.compensations[s.stepName].status.CompensationFailed? && !i.compensations[s.stepName].status.CompensationUnknown?) ||
       !StableName(s.code) || s.evidence.Size() > policy.value.resultLimit
    then None
    else
      var e := EventOn(Later(i, c.at), CompensationManuallyResolved, c.at).(
        stepName := s.stepName, code := s.code, data := s.evidence);
      AuditedPlan(c, i, audit.value, PlanOn(c.commandID, Later(i, c.at), [e], []))
  }

  datatype ApprovalSpec = ApprovalSpec(instance: Instance, definition: Definition, stepName: string, payload: Data)

  function NewOperatorApproval(c: Command, s: ApprovalSpec): Option<Transition> {
    var i := s.instance;
    var audit := AuditEvent(c, i, OperatorApprove);
    var step := FindStep(s.definition.steps, s.stepName, StepApproval);
    if audit.None? || s.definition.Reference() != i.definition || step.None? ||
       s.payload.Size() > step.value.inputLimit
    then None
    else
      var e := EventOn(Later(i, c.at), SignalReceived, c.at).(
        stepName := s.stepName, idempotencyKey := c.commandID, data := s.payload);
      AuditedPlan(c, i, audit.value, PlanOn(c.commandID, Later(i, c.at), [e], []))
  }
}
