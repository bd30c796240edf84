/**
 * Replay as a function: what each persisted event does to an instance value.
 * `ReplayMachine` computes the same result by updating fields in place.
 */
module Replay {
  import opened Basics
  import opened Definitions
  import opened Events
  import opened Backoff

  datatype InstanceStatus =
    | NotStarted | Running | Paused | Cancelling
    | Completed | Failed | Cancelled | Terminated | Continued

  predicate Terminal(status: InstanceStatus) {
    status.Completed? || status.Failed? || status.Cancelled? || status.Terminated? || status.Continued?
  }

  datatype ActivityStatus =
    ActivityReady | ActivityRunning | ActivitySucceeded | ActivityFailed | ActivityUnknown | ActivityRetryWaiting

  datatype ActivityProgress = ActivityProgress(
    stepName: string, status: ActivityStatus, attempt: Uint32, idempotencyKey: Ident, dueAt: Time,
    input: Data, result: Data, code: string, retryable: bool)

  datatype TimerProgress = TimerProgress(stepName: string, fired: bool, dueAt: Time, firedAt: Time)

  datatype SignalProgress = SignalProgress(stepName: string, signalID: Ident, receivedAt: Time, payload: Data)

  datatype RaceProgress = RaceProgress(stepName: string, winner: string, decidedAt: Time)

  datatype ChildStatus =
    | ChildIsScheduled | ChildSucceeded | ChildHasFailed | ChildStartRunning | ChildActive
    | ChildStartHasFailed | ChildStartIsUnknown | ChildRetryWaiting

  datatype ChildProgress = ChildProgress(
    stepName: string, childID: Ident, definition: DefinitionRef, status: ChildStatus, input: Data, result: Data,
    code: string, attempt: Uint32, idempotencyKey: Ident, dueAt: Time, retryable: bool)

  datatype CompensationStatus =
    | CompensationReady | CompensationRunning | CompensationSucceeded | CompensationFailed | CompensationUnknown
    | CompensationRetryWaiting | CompensationResolved

  datatype CompensationProgress = CompensationProgress(
    stepName: string, status: CompensationStatus, scheduledSequence: Uint64, attempt: Uint32,
    idempotencyKey: Ident, dueAt: Time, input: Data, result: Data, code: string, retryable: bool)

  datatype OperatorRecord = OperatorRecord(
    commandID: Ident, action: OperatorAction, actor: Ident, reason: string, occurredAt: Time)

  datatype Instance = Instance(
    id: Ident, definition: DefinitionRef, status: InstanceStatus, sequence: Uint64, startedAt: Time, updatedAt: Time,
    input: Data, result: Data, successorID: Ident,
    activities: map<string, ActivityProgress>, timers: map<string, TimerProgress>,
    signals: map<string, SignalProgress>, races: map<string, RaceProgress>,
    children: map<string, ChildProgress>, compensations: map<string, CompensationProgress>,
    operatorActions: seq<OperatorRecord>, pendingOperator: OperatorAction)

  /** The zero Instance that replay starts from. */
  const BLANK: Instance := Instance(
    NO_IDENT, NO_REFERENCE, NotStarted, 0, ZERO_TIME, ZERO_TIME, EMPTY, EMPTY, NO_IDENT,
    map[], map[], map[], map[], map[], map[], [], NoAction)

  function Lookup<V>(m: map<string, V>, name: string): Option<V> {
    if name in m then Some(m[name]) else None
  }

  /** Steps of the definition an instance is pinned to; none when it does not resolve. */
  function CurrentSteps(registry: Registry, definition: DefinitionRef): seq<StepSpec> {
    var key := DefinitionKey(definition.name, definition.version);
    if key in registry.definitions then registry.definitions[key].steps else []
  }

  function CheckReference(registry: Registry, r: DefinitionRef): (failure: Option<Error>)
    ensures failure.None? <==> Resolves(registry, r)
  {
    var key := DefinitionKey(r.name, r.version);
    if key !in registry.definitions then Some(DefinitionNotFound)
    else if DigestOf(registry.definitions[key]) != r.fingerprint then Some(DefinitionMismatch)
    else
      None
  }

  // --- one step's progress ------------------------------------------------

  function ActivityNext(step: StepSpec, status: InstanceStatus, current: Option<ActivityProgress>, phase: AttemptKind,
                        e: HistoryEvent): Option<ActivityProgress>
  {
    if phase.AttemptAdmitted? then
      if !status.Running? || current.Some? || e.data.Size() > step.inputLimit then None
      else Some(ActivityProgress(e.stepName, ActivityReady, 0, NO_IDENT, ZERO_TIME, e.data, EMPTY, "", false))
    else if current.None? then None
    else
      var progress := current.value;
      match phase
      case AttemptStarted =>
        if !status.Running? || (!progress.status.ActivityReady? && !progress.status.ActivityRetryWaiting?) ||
           e.attempt != Next32(progress.attempt) || e.attempt > step.retry.maxAttempts ||
           e.dueAt != e.occurredAt + step.timeout ||
           (progress.status.ActivityRetryWaiting? && e.occurredAt < progress.dueAt)
        then None
        else Some(progress.(status := ActivityRunning, attempt := e.attempt, idempotencyKey := e.idempotencyKey,
                            dueAt := e.dueAt, result := EMPTY, code := "", retryable := false))
      case AttemptSucceeded =>
        if !ActivityOutcomeAllowed(progress, e) || e.data.Size() > step.resultLimit then None
        else Some(progress.(status := ActivitySucceeded, dueAt := ZERO_TIME, result := e.data, code := "",
                            retryable := false))
      case AttemptFailed =>
        if !ActivityOutcomeAllowed(progress, e) || e.data.Size() > step.resultLimit then None
        else Some(progress.(status := ActivityFailed, dueAt := ZERO_TIME, result := e.data, code := e.code,
                            retryable := e.retryable))
      case AttemptUnknown =>
        if !ActivityOutcomeAllowed(progress, e) || e.data.Size() > step.resultLimit then None
        else Some(progress.(status := ActivityUnknown, dueAt := ZERO_TIME, result := e.data, code := e.code,
                            retryable := false))
      case AttemptRetry =>
        if !status.Running? || !progress.status.ActivityFailed? || !progress.retryable ||
           progress.attempt >= step.retry.maxAttempts || e.attempt != progress.attempt ||
           e.dueAt != e.occurredAt + RetryDelay(step.retry, e.attempt)
        then None
        else Some(progress.(status := ActivityRetryWaiting, dueAt := e.dueAt))
  }

  predicate ActivityOutcomeAllowed(progress: ActivityProgress, e: HistoryEvent) {
    progress.status.ActivityRunning? && e.attempt == progress.attempt
  }

  function TimerNext(step: StepSpec, status: InstanceStatus, current: Option<TimerProgress>, e: HistoryEvent)
    : Option<TimerProgress>
  {
    if e.kind.TimerScheduled? then
      if !status.Running? || current.Some? || e.dueAt != e.occurredAt + step.timeout then None
      else Some(TimerProgress(e.stepName, false, e.dueAt, ZERO_TIME))
    else if !status.Running? || current.None? || current.value.fired || e.occurredAt < current.value.dueAt then None
    else Some(current.value.(fired := true, firedAt := e.occurredAt))
  }

  function SignalNext(step: StepSpec, status: InstanceStatus, current: Option<SignalProgress>, e: HistoryEvent)
    : Option<SignalProgress>
  {
    if (!status.Running? && !status.Paused?) || current.Some? || e.data.Size() > step.inputLimit then None
    else Some(SignalProgress(e.stepName, e.idempotencyKey, e.occurredAt, e.data))
  }

  predicate ChildOutcomeAllowed(status: ChildStatus) {
    status.ChildIsScheduled? || status.ChildStartRunning? || status.ChildActive? || status.ChildStartIsUnknown?
  }

  function ChildStartNext(registry: Registry, step: StepSpec, current: Option<ChildProgress>, phase: AttemptKind,
                          e: HistoryEvent): Option<ChildProgress>
  {
    if phase.AttemptAdmitted? then
      if current.Some? || step.childDefinition != e.definition || e.data.Size() > step.inputLimit ||
         CheckReference(registry, e.definition).Some?
      then None
      else Some(ChildProgress(e.stepName, e.successorID, e.definition, ChildIsScheduled, e.data, EMPTY, "", 0,
                              NO_IDENT, ZERO_TIME, false))
    else if current.None? || current.value.childID != e.successorID then None
    else
      var progress := current.value;
      match phase
      case AttemptStarted =>
        if (!progress.status.ChildIsScheduled? && !progress.status.ChildRetryWaiting?) ||
           (progress.status.ChildRetryWaiting? && e.occurredAt < progress.dueAt) ||
           e.attempt != Next32(progress.attempt) || e.attempt > step.retry.maxAttempts ||
           e.dueAt != e.occurredAt + step.timeout
        then None
        else Some(progress.(status := ChildStartRunning, attempt := e.attempt, idempotencyKey := e.idempotencyKey,
                            dueAt := e.dueAt, code := "", retryable := false))
      case AttemptSucceeded =>
        if !progress.status.ChildStartRunning? || e.attempt != progress.attempt then None
        else Some(progress.(status := ChildActive, dueAt := ZERO_TIME))
      case AttemptFailed =>
        if !progress.status.ChildStartRunning? || e.attempt != progress.attempt then None
        else Some(progress.(status := ChildStartHasFailed, dueAt := ZERO_TIME, code := e.code,
                            retryable := e.retryable))
      case AttemptUnknown =>
        if !progress.status.ChildStartRunning? || e.attempt != progress.attempt then None
        else Some(progress.(status := ChildStartIsUnknown, dueAt := ZERO_TIME, code := e.code, retryable := false))
      case AttemptRetry =>
        if !progress.status.ChildStartHasFailed? || !progress.retryable ||
           progress.attempt >= step.retry.maxAttempts || e.attempt != progress.attempt ||
           e.dueAt != e.occurredAt + RetryDelay(step.retry, e.attempt)
        then None
        else Some(progress.(status := ChildRetryWaiting, dueAt := e.dueAt))
  }

  function ChildOutcomeNext(step: StepSpec, current: Option<ChildProgress>, e: HistoryEvent): Option<ChildProgress> {
    if current.None? || current.value.childID != e.successorID || !ChildOutcomeAllowed(current.value.status) ||
       e.data.Size() > step.resultLimit
    then None
    else Some(current.value.(result := e.data, code := e.code,
                             status := if e.kind.ChildCompleted? then ChildSucceeded else ChildHasFailed))
  }

  function CompensationNext(policy: CompensationSpec, status: InstanceStatus, activity: Option<ActivityProgress>,
                            current: Option<CompensationProgress>, phase: AttemptKind, e: HistoryEvent)
    : Option<CompensationProgress>
  {
    if phase.AttemptAdmitted? then
      if (!status.Running? && !status.Cancelling?) || current.Some? || activity.None? ||
         !activity.value.status.ActivitySucceeded?
      then None
      else Some(CompensationProgress(e.stepName, CompensationReady, e.sequence, 0, NO_IDENT, ZERO_TIME, e.data, EMPTY,
                                     "", false))
    else if current.None? then None
    else
      var progress := current.value;
      match phase
      case AttemptStarted =>
        if (!progress.status.CompensationReady? && !progress.status.CompensationRetryWaiting?) ||
           e.attempt != Next32(progress.attempt) || e.attempt > policy.retry.maxAttempts ||
           e.dueAt != e.occurredAt + policy.timeout ||
           (progress.status.CompensationRetryWaiting? && e.occurredAt < progress.dueAt)
        then None
        else Some(progress.(status := CompensationRunning, attempt := e.attempt, idempotencyKey := e.idempotencyKey,
                            dueAt := e.dueAt, result := EMPTY, code := "", retryable := false))
      case AttemptSucceeded | AttemptFailed | AttemptUnknown =>
        if !progress.status.CompensationRunning? || e.attempt != progress.attempt ||
           e.data.Size() > policy.resultLimit
        then None
        else Some(progress.(dueAt := ZERO_TIME, result := e.data, code := e.code, retryable := e.retryable,
                            status := if phase.AttemptSucceeded? then CompensationSucceeded
                                      else if phase.AttemptFailed? then CompensationFailed
                                      else CompensationUnknown))
      case AttemptRetry =>
        if !progress.status.CompensationFailed? || !progress.retryable ||
           progress.attempt >= policy.retry.maxAttempts || e.attempt != progress.attempt ||
           e.dueAt != e.occurredAt + RetryDelay(policy.retry, e.attempt)
        then None
        else Some(progress.(status := CompensationRetryWaiting, dueAt := e.dueAt))
  }

  function ResolutionNext(policy: CompensationSpec, current: Option<CompensationProgress>, e: HistoryEvent)
    : Option<CompensationProgress>
  {
    if current.None? || (!current.value.status.CompensationFailed? && !current.value.status.CompensationUnknown?) ||
       e.data.Size() > policy.resultLimit
    then None
    else Some(current.value.(status := CompensationResolved, result := e.data, code := e.code, retryable := false))
  }

  // --- one event ----------------------------------------------------------

  /** New progress of the activity an event names, if replay accepts it. */
  function ApplyActivity(registry: Registry, i: Instance, phase: AttemptKind, e: HistoryEvent)
    : Option<ActivityProgress>
  {
    var step := FindStep(CurrentSteps(registry, i.definition), e.stepName, StepActivity);
    if step.None? then None
    else ActivityNext(step.value, i.status, Lookup(i.activities, e.stepName), phase, e)
  }

  /** A signal event may name a signal step or, failing that, an approval step. */
  function SignalStep(steps: seq<StepSpec>, name: string): Option<StepSpec> {
    var signal := FindStep(steps, name, StepSignal);
    if signal.Some? then signal else FindStep(steps, name, StepApproval)
  }

  function ApplySignal(registry: Registry, i: Instance, e: HistoryEvent): Option<SignalProgress> {
    var step := SignalStep(CurrentSteps(registry, i.definition), e.stepName);
    if step.None? then None else SignalNext(step.value, i.status, Lookup(i.signals, e.stepName), e)
  }

  function ApplyTimer(registry: Registry, i: Instance, e: HistoryEvent): Option<TimerProgress> {
    var step := FindStep(CurrentSteps(registry, i.definition), e.stepName, StepTimer);
    if step.None? then None else TimerNext(step.value, i.status, Lookup(i.timers, e.stepName), e)
  }

  function ApplyRace(registry: Registry, i: Instance, e: HistoryEvent): Option<RaceProgress> {
    var step := FindStep(CurrentSteps(registry, i.definition), e.stepName, StepRace);
    var winner := e.data.AsName();
    if step.None? || !i.status.Running? || winner !in i.signals || winner !in step.value.branches ||
       e.stepName in i.races
    then None
    else Some(RaceProgress(e.stepName, winner, e.occurredAt))
  }

  function ApplyChild(registry: Registry, i: Instance, e: HistoryEvent): Option<ChildProgress> {
    var step := FindStep(CurrentSteps(registry, i.definition), e.stepName, StepChild);
    if step.None? || !i.status.Running? then None
    else
      var current := Lookup(i.children, e.stepName);
      if e.kind.ChildStart? then ChildStartNext(registry, step.value, current, e.kind.phase, e)
      else ChildOutcomeNext(step.value, current, e)
  }

  function ApplyCompensation(registry: Registry, i: Instance, e: HistoryEvent): Option<CompensationProgress> {
    var step := FindStep(CurrentSteps(registry, i.definition), e.stepName, StepActivity);
    if step.None? || step.value.compensation.None? then None
    else
      var policy := step.value.compensation.value;
      var current := Lookup(i.compensations, e.stepName);
      if e.kind.Compensation? then
        CompensationNext(policy, i.status, Lookup(i.activities, e.stepName), current, e.kind.phase, e)
      else ResolutionNext(policy, current, e)
  }

  function ApplyOperator(i: Instance, e: HistoryEvent): Option<OperatorRecord> {
    var audit := DecodeOperatorAudit(e.data);
    if !i.pendingOperator.NoAction? || audit.None? then None
    else Some(OperatorRecord(e.idempotencyKey, audit.value.action, audit.value.actor, audit.value.reason,
                             e.occurredAt))
  }

  function ApplyMigration(registry: Registry, i: Instance, e: HistoryEvent): Result<Instance> {
    if !i.status.Paused? then Err(InvalidTransition)
    else if e.definition.name != i.definition.name then Err(InvalidMigration)
    else if CheckReference(registry, e.definition).Some? then Err(CheckReference(registry, e.definition).value)
    else if MigrationKey(i.definition.name, i.definition.version, e.definition.version) !in registry.migrations then
      Err(MigrationNotFound)
    else Ok(i.(definition := e.definition, input := e.data))
  }

  function ApplyContinuation(registry: Registry, i: Instance, e: HistoryEvent): Result<Instance> {
    if !i.status.Running? then Err(InvalidTransition)
    else if CheckReference(registry, e.definition).Some? then Err(CheckReference(registry, e.definition).value)
    else Ok(i.(status := Continued, successorID := e.successorID))
  }

  function ApplyLifecycle(registry: Registry, i: Instance, change: LifecycleKind, e: HistoryEvent): Result<Instance> {
    match change
    case InstancePaused => if !i.status.Running? then Err(InvalidTransition) else Ok(i.(status := Paused))
    case InstanceResumed => if !i.status.Paused? then Err(InvalidTransition) else Ok(i.(status := Running))
    case CancellationRequested =>
      if !i.status.Running? && !i.status.Paused? then Err(InvalidTransition) else Ok(i.(status := Cancelling))
    case InstanceCancelled =>
      if !i.status.Cancelling? then Err(InvalidTransition) else Ok(i.(status := Cancelled, result := e.data))
    case InstanceCompleted =>
      if !i.status.Running? then Err(InvalidTransition) else Ok(i.(status := Completed, result := e.data))
    case InstanceFailed =>
      if !i.status.Running? then Err(InvalidTransition) else Ok(i.(status := Failed, result := e.data))
    case InstanceTerminated => Ok(i.(status := Terminated, result := e.data))
    case DefinitionMigrated => ApplyMigration(registry, i, e)
    case ContinuedAsNew => ApplyContinuation(registry, i, e)
    case InstanceStarted => Err(InvalidTransition)
  }

  /** Runs the one handler an event's kind selects and stores its outcome. */
  function Dispatch(registry: Registry, i: Instance, e: HistoryEvent): Result<Instance> {
    match e.kind
    case Lifecycle(change) => ApplyLifecycle(registry, i, change, e)
    case Activity(phase) =>
      (match ApplyActivity(registry, i, phase, e)
       case None => Err(InvalidTransition)
       case Some(next) => Ok(i.(activities := i.activities[e.stepName := next])))
    case Compensation(_) | CompensationManuallyResolved =>
      (match ApplyCompensation(registry, i, e)
       case None => Err(InvalidTransition)
       case Some(next) => Ok(i.(compensations := i.compensations[e.stepName := next])))
    case ChildStart(_) | ChildCompleted | ChildFailed =>
      (match ApplyChild(registry, i, e)
       case None => Err(InvalidTransition)
       case Some(next) => Ok(i.(children := i.children[e.stepName := next])))
    case TimerScheduled | TimerFired =>
      (match ApplyTimer(registry, i, e)
       case None => Err(InvalidTransition)
       case Some(next) => Ok(i.(timers := i.timers[e.stepName := next])))
    case SignalReceived =>
      (match ApplySignal(registry, i, e)
       case None => Err(InvalidTransition)
       case Some(next) => Ok(i.(signals := i.signals[e.stepName := next])))
    case RaceWon =>
      (match ApplyRace(registry, i, e)
       case None => Err(InvalidTransition)
       case Some(next) => Ok(i.(races := i.races[e.stepName := next])))
    case OperatorCommandRecorded =>
      (match ApplyOperator(i, e)
       case None => Err(InvalidTransition)
       case Some(record) =>
         Ok(i.(operatorActions := i.operatorActions + [record], pendingOperator := record.action)))
  }

  function ApplyStart(registry: Registry, e: HistoryEvent): Result<Instance> {
    if !IsStart(e.kind) then Err(InvalidTransition)
    else if e.sequence != 1 then Err(HistoryConflict)
    else
      match CheckReference(registry, e.definition)
      case Some(failure) => Err(failure)
      case None =>
        Ok(BLANK.(id := e.instanceID, definition := e.definition, status := Running, sequence := e.sequence,
                  startedAt := e.occurredAt, updatedAt := e.occurredAt, input := e.data))
  }

  function Apply(registry: Registry, i: Instance, e: HistoryEvent): Result<Instance> {
    if i.sequence == 0 then ApplyStart(registry, e)
    else if e.instanceID != i.id || e.sequence != Next64(i.sequence) || e.occurredAt < i.updatedAt then
      Err(HistoryConflict)
    else if Terminal(i.status) then Err(InvalidTransition)
    else if !i.pendingOperator.NoAction? && !CompletesAction(i.pendingOperator, e.kind) then
      Err(InvalidTransition)
    else
      match Dispatch(registry, i, e)
      case Err(failure) => Err(failure)
      case Ok(j) =>
        Ok(j.(sequence := e.sequence, updatedAt := e.occurredAt,
              pendingOperator := if !i.pendingOperator.NoAction? then NoAction else j.pendingOperator))
  }

  // --- whole histories ----------------------------------------------------

  /** Applies events one after the other. */
  function ApplyAll(registry: Registry, i: Instance, events: seq<HistoryEvent>): Result<Instance> {
    if events == [] then Ok(i)
    else
      match ApplyAll(registry, i, events[..|events| - 1])
      case Err(failure) => Err(failure)
      case Ok(j) => Apply(registry, j, events[|events| - 1])
  }

  function ReplayHistory(registry: Registry, events: seq<HistoryEvent>): Result<Instance> {
    if events == [] then Err(EmptyHistory)
    else
      match ApplyAll(registry, BLANK, events)
      case Err(failure) => Err(failure)
      case Ok(i) => if !i.pendingOperator.NoAction? then Err(InvalidTransition) else Ok(i)
  }

  /** Applying a concatenation is applying one part after the other. */
  lemma {:induction false} ApplyAllConcat(registry: Registry, i: Instance, a: seq<HistoryEvent>, b: seq<HistoryEvent>)
    ensures ApplyAll(registry, i, a + b) ==
            (match ApplyAll(registry, i, a) case Err(failure) => Err(failure) case Ok(j) => ApplyAll(registry, j, b))
  {
    if b == [] {
      assert a + b == a;
    } else {
      ApplyAllConcat(registry, i, a, b[..|b| - 1]);
      assert (a + b)[..|a + b| - 1] == a + b[..|b| - 1];
    }
  }

  lemma ApplyOne(registry: Registry, i: Instance, e: HistoryEvent)
    ensures ApplyAll(registry, i, [e]) == Apply(registry, i, e)
  {
    assert [e][..0] == [];
    assert ApplyAll(registry, i, []) == Ok(i);
  }

  lemma ApplyTwo(registry: Registry, i: Instance, e: HistoryEvent, f: HistoryEvent)
    ensures ApplyAll(registry, i, [e, f]) ==
            (match Apply(registry, i, e) case Err(failure) => Err(failure) case Ok(j) => Apply(registry, j, f))
  {
    assert [e, f] == [e] + [f];
    ApplyAllConcat(registry, i, [e], [f]);
    ApplyOne(registry, i, e);
    if Apply(registry, i, e).Ok? {
      ApplyOne(registry, Apply(registry, i, e).value, f);
    }
  }
}
