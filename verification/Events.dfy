/** Persisted history records and the field rules of each record kind. */
module Events {
  import opened Basics
  import opened Definitions

  /** The phases every attempt-driven step goes through. */
  datatype AttemptKind =
    | AttemptAdmitted | AttemptStarted | AttemptSucceeded | AttemptFailed | AttemptUnknown | AttemptRetry

  datatype LifecycleKind =
    | InstanceStarted | InstancePaused | InstanceResumed
    | CancellationRequested | InstanceCancelled | InstanceCompleted
    | InstanceFailed | InstanceTerminated | DefinitionMigrated | ContinuedAsNew

  /**
   * The persisted event kinds. The scheduling, attempt, outcome and retry kinds
   * of activities, compensations and child starts are one family each.
   */
  datatype EventKind =
    | Lifecycle(change: LifecycleKind)
    | Activity(phase: AttemptKind)
    | Compensation(phase: AttemptKind)
    | CompensationManuallyResolved
    | ChildStart(phase: AttemptKind)
    | ChildCompleted
    | ChildFailed
    | TimerScheduled
    | TimerFired
    | SignalReceived
    | RaceWon
    | OperatorCommandRecorded

  datatype OperatorAction =
    | NoAction
    | OperatorPause | OperatorResume | OperatorCancel | OperatorTerminate
    | OperatorRetryActivity | OperatorCompensate | OperatorResolveCompensation | OperatorApprove

  /**
   * Opaque persisted bytes. Encoded operator audits are kept apart as what they
   * decode to; plain bytes never decode as an audit.
   */
  datatype Data =
    | Bytes(text: string)
    | AuditDocument(action: OperatorAction, actor: Ident, reason: string)
  {
    function Size(): nat {
      match this
      case Bytes(text) => |text|
      case AuditDocument(_, actor, reason) => 35 + IdentLength(actor) + |reason|
    }

    /** The bytes read as a name; an encoded audit begins with a brace and is no name. */
    function AsName(): string {
      match this
      case Bytes(text) => text
      case AuditDocument(_, _, _) => "{"
    }
  }

  const EMPTY: Data := Bytes("")

  const MAX_OPERATOR_AUDIT_BYTES: int := 1024

  /** The audit an event's data decodes to, if it is a well-formed one. */
  function DecodeOperatorAudit(data: Data): (decoded: Option<Data>)
    ensures decoded.Some? ==> decoded.value == data && data.AuditDocument? && !data.action.NoAction?
  {
    if data.AuditDocument? && data.Size() <= MAX_OPERATOR_AUDIT_BYTES && !data.action.NoAction? &&
       ValidIdent(data.actor) && StableName(data.reason)
    then Some(data)
    else None
  }

  datatype HistoryEvent = HistoryEvent(
    sequence: Uint64, instanceID: Ident, kind: EventKind, occurredAt: Time,
    definition: DefinitionRef, successorID: Ident, stepName: string, attempt: Uint32,
    idempotencyKey: Ident, dueAt: Time, code: string, retryable: bool, data: Data)

  /** An event with only the fields every event has. */
  function BlankEvent(sequence: Uint64, instanceID: Ident, kind: EventKind, occurredAt: Time): HistoryEvent {
    HistoryEvent(sequence, instanceID, kind, occurredAt, NO_REFERENCE, NO_IDENT, "", 0, NO_IDENT, ZERO_TIME, "",
                 false, EMPTY)
  }

  predicate IsChildEvent(kind: EventKind) {
    kind.ChildStart? || kind.ChildCompleted? || kind.ChildFailed?
  }

  predicate IsCompensationEvent(kind: EventKind) {
    kind.Compensation? || kind.CompensationManuallyResolved?
  }

  predicate IsWaitEvent(kind: EventKind) {
    kind.TimerScheduled? || kind.TimerFired? || kind.SignalReceived?
  }

  predicate IsTerminalChange(change: LifecycleKind) {
    change.InstanceCompleted? || change.InstanceFailed? || change.InstanceCancelled? || change.InstanceTerminated? ||
    change.ContinuedAsNew?
  }

  predicate IsTerminalEvent(kind: EventKind) {
    kind.Lifecycle? && IsTerminalChange(kind.change)
  }

  predicate IsStart(kind: EventKind) {
    kind.Lifecycle? && kind.change.InstanceStarted?
  }

  predicate IsMigration(kind: EventKind) {
    kind.Lifecycle? && kind.change.DefinitionMigrated?
  }

  predicate IsContinuation(kind: EventKind) {
    kind.Lifecycle? && kind.change.ContinuedAsNew?
  }

  predicate CarriesDefinition(kind: EventKind) {
    IsStart(kind) || IsMigration(kind) || IsContinuation(kind) || (kind.ChildStart? && kind.phase.AttemptAdmitted?)
  }

  predicate NoAttemptFields(e: HistoryEvent) {
    e.attempt == 0 && e.idempotencyKey == NO_IDENT && e.dueAt == ZERO_TIME && e.code == "" && !e.retryable
  }

  /** Fields of an attempt start: numbered, keyed, with a deadline and nothing else. */
  predicate StartFields(e: HistoryEvent) {
    e.attempt > 0 && ValidIdent(e.idempotencyKey) && e.dueAt > e.occurredAt && e.code == "" && !e.retryable &&
    e.data.Size() == 0
  }

  predicate SuccessFields(e: HistoryEvent) {
    e.attempt > 0 && e.idempotencyKey == NO_IDENT && e.dueAt == ZERO_TIME && e.code == "" && !e.retryable
  }

  predicate FailureFields(e: HistoryEvent) {
    e.attempt > 0 && e.idempotencyKey == NO_IDENT && e.dueAt == ZERO_TIME && StableName(e.code)
  }

  predicate RetryFields(e: HistoryEvent) {
    e.attempt > 0 && e.idempotencyKey == NO_IDENT && e.dueAt > e.occurredAt && e.code == "" && !e.retryable &&
    e.data.Size() == 0
  }

  predicate ValidAttemptFields(phase: AttemptKind, e: HistoryEvent) {
    match phase
    case AttemptAdmitted => NoAttemptFields(e)
    case AttemptStarted => StartFields(e)
    case AttemptSucceeded => SuccessFields(e)
    case AttemptFailed => FailureFields(e)
    case AttemptUnknown => FailureFields(e) && !e.retryable
    case AttemptRetry => RetryFields(e)
  }

  /** A code and nothing else of the attempt fields. */
  predicate CodeOnly(e: HistoryEvent) {
    e.attempt == 0 && e.idempotencyKey == NO_IDENT && e.dueAt == ZERO_TIME && StableName(e.code) && !e.retryable
  }

  predicate ValidWaitFields(e: HistoryEvent) {
    StableName(e.stepName) && e.attempt == 0 && e.code == "" && !e.retryable &&
    if e.kind.TimerScheduled? then e.idempotencyKey == NO_IDENT && e.dueAt > e.occurredAt && e.data.Size() == 0
    else if e.kind.TimerFired? then e.idempotencyKey == NO_IDENT && e.dueAt == ZERO_TIME && e.data.Size() == 0
    else ValidIdent(e.idempotencyKey) && e.dueAt == ZERO_TIME
  }

  predicate ValidOperatorFields(e: HistoryEvent) {
    e.stepName == "" && e.attempt == 0 && e.dueAt == ZERO_TIME && e.code == "" && !e.retryable &&
    ValidIdent(e.idempotencyKey) && DecodeOperatorAudit(e.data).Some?
  }

  predicate ValidRaceFields(e: HistoryEvent) {
    StableName(e.stepName) && StableName(e.data.AsName()) && NoAttemptFields(e)
  }

  predicate ValidKindFields(e: HistoryEvent) {
    match e.kind
    case Activity(phase) => StableName(e.stepName) && ValidAttemptFields(phase, e)
    case Compensation(phase) => StableName(e.stepName) && ValidAttemptFields(phase, e)
    case CompensationManuallyResolved => StableName(e.stepName) && CodeOnly(e)
    case ChildStart(phase) =>
      StableName(e.stepName) && ValidAttemptFields(phase, e) && (phase.AttemptAdmitted? || e.data.Size() == 0)
    case ChildCompleted => StableName(e.stepName) && NoAttemptFields(e)
    case ChildFailed => StableName(e.stepName) && CodeOnly(e)
    case TimerScheduled | TimerFired | SignalReceived => ValidWaitFields(e)
    case RaceWon => ValidRaceFields(e)
    case OperatorCommandRecorded => ValidOperatorFields(e)
    case Lifecycle(_) => e.stepName == "" && NoAttemptFields(e)
  }

  /** What every constructed or scanned history record satisfies. */
  predicate ValidEvent(e: HistoryEvent) {
    && e.sequence > 0 && ValidIdent(e.instanceID) && e.occurredAt != ZERO_TIME
    && e.data.Size() <= MAX_PAYLOAD_BYTES
    && (if CarriesDefinition(e.kind) then ValidReference(e.definition) else e.definition == NO_REFERENCE)
    && (if IsContinuation(e.kind) || IsChildEvent(e.kind) then ValidIdent(e.successorID) else e.successorID == NO_IDENT)
    && ValidKindFields(e)
  }

  lemma PositiveSequence(e: HistoryEvent)
    requires ValidEvent(e)
    ensures e.sequence > 0 && e.occurredAt != ZERO_TIME
  {
  }

  predicate ValidEvents(events: seq<HistoryEvent>) {
    forall i | 0 <= i < |events| :: ValidEvent(events[i])
  }

  /** The event kind that must directly follow an audited operator command. */
  predicate CompletesAction(action: OperatorAction, kind: EventKind) {
    match action
    case NoAction => false
    case OperatorPause => kind.Lifecycle? && kind.change.InstancePaused?
    case OperatorResume => kind.Lifecycle? && kind.change.InstanceResumed?
    case OperatorCancel => kind.Lifecycle? && kind.change.CancellationRequested?
    case OperatorTerminate => kind.Lifecycle? && kind.change.InstanceTerminated?
    case OperatorRetryActivity => kind.Activity? && kind.phase.AttemptRetry?
    case OperatorCompensate => kind.Compensation? && kind.phase.AttemptAdmitted?
    case OperatorResolveCompensation => kind.CompensationManuallyResolved?
    case OperatorApprove => kind.SignalReceived?
  }
}
