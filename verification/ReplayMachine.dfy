/**
 * Replay as statements: one mutable instance whose fields and progress
 * maps are updated in place, event by event. Every handler is proved to leave
 * exactly the state the function in `Replay` gives, and to leave the instance
 * untouched when it refuses an event.
 */
module ReplayMachine {
  import opened Basics
  import opened Definitions
  import opened Backoff
  import opened Events
  import opened R = Replay

  /** Every step of a registered definition has retry policies the delay loop accepts. */
  lemma RegisteredRetry(registry: Registry, definition: DefinitionRef, step: StepSpec)
    requires ValidRegistry(registry) && step in CurrentSteps(registry, definition)
    ensures step.kind == StepActivity || step.kind == StepChild ==> ValidRetry(step.retry)
    ensures step.compensation.Some? ==> ValidRetry(step.compensation.value.retry)
  {
    hide ValidControlFlow, UniqueNames, BranchesResolve, StableName, ChildPinsResolve;
    var key := DefinitionKey(definition.name, definition.version);
    assert ValidDefinition(registry.definitions[key]);
    assert ValidStep(step);
  }

  lemma StartedBlank(registry: Registry, e: HistoryEvent)
    requires IsStart(e.kind) && e.sequence == 1 && CheckReference(registry, e.definition).None?
    ensures R.ApplyStart(registry, e) ==
            Ok(Instance(e.instanceID, e.definition, Running, e.sequence, e.occurredAt, e.occurredAt, e.data, EMPTY,
                        NO_IDENT, map[], map[], map[], map[], map[], map[], [], NoAction))
  {
  }

  lemma RefusedStart(registry: Registry, e: HistoryEvent)
    ensures !IsStart(e.kind) ==> R.ApplyStart(registry, e) == Err(InvalidTransition)
    ensures IsStart(e.kind) && e.sequence != 1 ==> R.ApplyStart(registry, e) == Err(HistoryConflict)
    ensures IsStart(e.kind) && e.sequence == 1 && CheckReference(registry, e.definition).Some? ==>
              R.ApplyStart(registry, e) == Err(CheckReference(registry, e.definition).value)
  {
  }

  class ReplayedInstance {
    var id: Ident
    var definition: DefinitionRef
    var status: InstanceStatus
    var sequence: Uint64
    var startedAt: Time
    var updatedAt: Time
    var input: Data
    var result: Data
    var successorID: Ident
    var activities: map<string, ActivityProgress>
    var timers: map<string, TimerProgress>
    var signals: map<string, SignalProgress>
    var races: map<string, RaceProgress>
    var children: map<string, ChildProgress>
    var compensations: map<string, CompensationProgress>
    var operatorActions: seq<OperatorRecord>
    var pendingOperator: OperatorAction

    function Snapshot(): Instance
      reads this
    {
      Instance(id, definition, status, sequence, startedAt, updatedAt, input, result, successorID, activities,
               timers, signals, races, children, compensations, operatorActions, pendingOperator)
    }

    constructor ()
      ensures Snapshot() == BLANK
    {
      id, definition, status, sequence := NO_IDENT, NO_REFERENCE, NotStarted, 0;
      startedAt, updatedAt := ZERO_TIME, ZERO_TIME;
      input, result, successorID := EMPTY, EMPTY, NO_IDENT;
      activities, timers, signals, races, children, compensations := map[], map[], map[], map[], map[], map[];
      operatorActions, pendingOperator := [], NoAction;
    }

    method ApplyActivity(registry: Registry, phase: AttemptKind, e: HistoryEvent) returns (ok: bool)
      requires ValidRegistry(registry)
      modifies this`activities
      ensures var next := R.ApplyActivity(registry, old(Snapshot()), phase, e);
              ok == next.Some? && activities == if ok then old(activities)[e.stepName := next.value] else old(activities)
    {
      hide ValidRegistry, RetryDelay, CurrentSteps, FindStep;
      var found := FindStep(CurrentSteps(registry, definition), e.stepName, StepActivity);
      if found.None? {
        return false;
      }
      var step := found.value;
      if phase.AttemptAdmitted? {
        if !status.Running? || e.stepName in activities || e.data.Size() > step.inputLimit {
          return false;
        }
        activities := activities[e.stepName := ActivityProgress(e.stepName, ActivityReady, 0, NO_IDENT, ZERO_TIME,
                                                                e.data, EMPTY, "", false)];
        return true;
      }
      if e.stepName !in activities {
        return false;
      }
      var progress := activities[e.stepName];
      match phase {
        case AttemptStarted =>
          if !status.Running? || (!progress.status.ActivityReady? && !progress.status.ActivityRetryWaiting?) ||
             e.attempt != Next32(progress.attempt) || e.attempt > step.retry.maxAttempts ||
             e.dueAt != e.occurredAt + step.timeout ||
             (progress.status.ActivityRetryWaiting? && e.occurredAt < progress.dueAt) {
            return false;
          }
          progress := progress.(status := ActivityRunning, attempt := e.attempt, idempotencyKey := e.idempotencyKey,
                                dueAt := e.dueAt, result := EMPTY, code := "", retryable := false);
        case AttemptSucceeded =>
          if !ActivityOutcomeAllowed(progress, e) || e.data.Size() > step.resultLimit {
            return false;
          }
          progress := progress.(status := ActivitySucceeded, dueAt := ZERO_TIME, result := e.data, code := "",
                                retryable := false);
        case AttemptFailed =>
          if !ActivityOutcomeAllowed(progress, e) || e.data.Size() > step.resultLimit {
            return false;
          }
          progress := progress.(status := ActivityFailed, dueAt := ZERO_TIME, result := e.data, code := e.code,
                                retryable := e.retryable);
        case AttemptUnknown =>
          if !ActivityOutcomeAllowed(progress, e) || e.data.Size() > step.resultLimit {
            return false;
          }
          progress := progress.(status := ActivityUnknown, dueAt := ZERO_TIME, result := e.data, code := e.code,
                                retryable := false);
        case AttemptRetry =>
          RegisteredRetry(registry, definition, step);
          var delay := ComputeRetryDelay(step.retry, e.attempt);
          if !status.Running? || !progress.status.ActivityFailed? || !progress.retryable ||
             progress.attempt >= step.retry.maxAttempts || e.attempt != progress.attempt ||
             e.dueAt != e.occurredAt + delay {
            return false;
          }
          progress := progress.(status := ActivityRetryWaiting, dueAt := e.dueAt);
      }
      activities := activities[e.stepName := progress];
      ok := true;
    }

    method ApplyWait(registry: Registry, e: HistoryEvent) returns (ok: bool)
      requires IsWaitEvent(e.kind)
      modifies this`timers, this`signals
      ensures e.kind.SignalReceived? ==>
                var next := R.ApplySignal(registry, old(Snapshot()), e);
                && ok == next.Some? && timers == old(timers)
                && signals == if ok then old(signals)[e.stepName := next.value] else old(signals)
      ensures !e.kind.SignalReceived? ==>
                var next := R.ApplyTimer(registry, old(Snapshot()), e);
                && ok == next.Some? && signals == old(signals)
                && timers == if ok then old(timers)[e.stepName := next.value] else old(timers)
    {
      var steps := CurrentSteps(registry, definition);
      if e.kind.SignalReceived? {
        var step := FindStep(steps, e.stepName, StepSignal);
        if step.None? {
          step := FindStep(steps, e.stepName, StepApproval);
        }
        if step.None? || (!status.Running? && !status.Paused?) || e.stepName in signals ||
           e.data.Size() > step.value.inputLimit {
          return false;
        }
        signals := signals[e.stepName := SignalProgress(e.stepName, e.idempotencyKey, e.occurredAt, e.data)];
        return true;
      }
      var step := FindStep(steps, e.stepName, StepTimer);
      if step.None? {
        return false;
      }
      if e.kind.TimerScheduled? {
        if !status.Running? || e.stepName in timers || e.dueAt != e.occurredAt + step.value.timeout {
          return false;
        }
        timers := timers[e.stepName := TimerProgress(e.stepName, false, e.dueAt, ZERO_TIME)];
        return true;
      }
      if !status.Running? || e.stepName !in timers || timers[e.stepName].fired ||
         e.occurredAt < timers[e.stepName].dueAt {
        return false;
      }
      var progress := timers[e.stepName];
      progress := progress.(fired := true, firedAt := e.occurredAt);
      timers := timers[e.stepName := progress];
      ok := true;
    }

    method ApplyRace(registry: Registry, e: HistoryEvent) returns (ok: bool)
      modifies this`races
      ensures var next := R.ApplyRace(registry, old(Snapshot()), e);
              ok == next.Some? && races == if ok then old(races)[e.stepName := next.value] else old(races)
    {
      var step := FindStep(CurrentSteps(registry, definition), e.stepName, StepRace);
      var winner := e.data.AsName();
      if step.None? || !status.Running? || winner !in signals || winner !in step.value.branches {
        return false;
      }
      if e.stepName in races {
        return false;
      }
      races := races[e.stepName := RaceProgress(e.stepName, winner, e.occurredAt)];
      ok := true;
    }

    method ApplyChild(registry: Registry, e: HistoryEvent) returns (ok: bool)
      requires ValidRegistry(registry) && IsChildEvent(e.kind)
      modifies this`children
      ensures var next := R.ApplyChild(registry, old(Snapshot()), e);
              ok == next.Some? && children == if ok then old(children)[e.stepName := next.value] else old(children)
    {
      hide ValidRegistry, RetryDelay, CurrentSteps, FindStep;
      var found := FindStep(CurrentSteps(registry, definition), e.stepName, StepChild);
      if found.None? || !status.Running? {
        return false;
      }
      var step := found.value;
      if e.kind.ChildStart? && e.kind.phase.AttemptAdmitted? {
        if e.stepName in children || step.childDefinition != e.definition || e.data.Size() > step.inputLimit ||
           CheckReference(registry, e.definition).Some? {
          return false;
        }
        children := children[e.stepName := ChildProgress(e.stepName, e.successorID, e.definition, ChildIsScheduled,
                                                         e.data, EMPTY, "", 0, NO_IDENT, ZERO_TIME, false)];
        return true;
      }
      if e.stepName !in children || children[e.stepName].childID != e.successorID {
        return false;
      }
      var progress := children[e.stepName];
      if e.kind.ChildStart? {
        match e.kind.phase {
          case AttemptStarted =>
            match progress.status {
              case ChildIsScheduled =>
              case ChildRetryWaiting =>
                if e.occurredAt < progress.dueAt {
                  return false;
                }
              case _ =>
                return false;
            }
            if e.attempt != Next32(progress.attempt) || e.attempt > step.retry.maxAttempts ||
               e.dueAt != e.occurredAt + step.timeout {
              return false;
            }
            progress := progress.(status := ChildStartRunning, attempt := e.attempt,
                                  idempotencyKey := e.idempotencyKey, dueAt := e.dueAt, code := "", retryable := false);
          case AttemptSucceeded =>
            if !progress.status.ChildStartRunning? || e.attempt != progress.attempt {
              return false;
            }
            progress := progress.(status := ChildActive, dueAt := ZERO_TIME);
          case AttemptFailed =>
            if !progress.status.ChildStartRunning? || e.attempt != progress.attempt {
              return false;
            }
            progress := progress.(status := ChildStartHasFailed, dueAt := ZERO_TIME, code := e.code,
                                  retryable := e.retryable);
          case AttemptUnknown =>
            if !progress.status.ChildStartRunning? || e.attempt != progress.attempt {
              return false;
            }
            progress := progress.(status := ChildStartIsUnknown, dueAt := ZERO_TIME, code := e.code,
                                  retryable := false);
          case AttemptRetry =>
            RegisteredRetry(registry, definition, step);
            var delay := ComputeRetryDelay(step.retry, e.attempt);
            if !progress.status.ChildStartHasFailed? || !progress.retryable ||
               progress.attempt >= step.retry.maxAttempts || e.attempt != progress.attempt ||
               e.dueAt != e.occurredAt + delay {
              return false;
            }
            progress := progress.(status := ChildRetryWaiting, dueAt := e.dueAt);
        }
      } else {
        if !ChildOutcomeAllowed(progress.status) || e.data.Size() > step.resultLimit {
          return false;
        }
        progress := progress.(result := e.data, code := e.code,
                              status := if e.kind.ChildCompleted? then ChildSucceeded else ChildHasFailed);
      }
      children := children[e.stepName := progress];
      ok := true;
    }

    method ApplyCompensation(registry: Registry, e: HistoryEvent) returns (ok: bool)
      requires ValidRegistry(registry) && IsCompensationEvent(e.kind)
      modifies this`compensations
      ensures var next := R.ApplyCompensation(registry, old(Snapshot()), e);
              && ok == next.Some?
              && compensations == if ok then old(compensations)[e.stepName := next.value] else old(compensations)
    {
      hide ValidRegistry, RetryDelay, CurrentSteps, FindStep;
      var found := FindStep(CurrentSteps(registry, definition), e.stepName, StepActivity);
      if found.None? || found.value.compensation.None? {
        return false;
      }
      var policy := found.value.compensation.value;
      if e.kind.Compensation? && e.kind.phase.AttemptAdmitted? {
        if (!status.Running? && !status.Cancelling?) || e.stepName in compensations ||
           e.stepName !in activities || !activities[e.stepName].status.ActivitySucceeded? {
          return false;
        }
        compensations := compensations[e.stepName := CompensationProgress(
          e.stepName, CompensationReady, e.sequence, 0, NO_IDENT, ZERO_TIME, e.data, EMPTY, "", false)];
        return true;
      }
      if e.stepName !in compensations {
        return false;
      }
      var progress := compensations[e.stepName];
      if e.kind.CompensationManuallyResolved? {
        if (!progress.status.CompensationFailed? && !progress.status.CompensationUnknown?) ||
           e.data.Size() > policy.resultLimit {
          return false;
        }
        progress := progress.(status := CompensationResolved, result := e.data, code := e.code, retryable := false);
      } else {
        match e.kind.phase {
          case AttemptStarted =>
            if (!progress.status.CompensationReady? && !progress.status.CompensationRetryWaiting?) ||
               e.attempt != Next32(progress.attempt) || e.attempt > policy.retry.maxAttempts ||
               e.dueAt != e.occurredAt + policy.timeout ||
               (progress.status.CompensationRetryWaiting? && e.occurredAt < progress.dueAt) {
              return false;
            }
            progress := progress.(status := CompensationRunning, attempt := e.attempt,
                                  idempotencyKey := e.idempotencyKey, dueAt := e.dueAt, result := EMPTY, code := "",
                                  retryable := false);
          case AttemptSucceeded | AttemptFailed | AttemptUnknown =>
            if !progress.status.CompensationRunning? || e.attempt != progress.attempt ||
               e.data.Size() > policy.resultLimit {
              return false;
            }
            progress := progress.(dueAt := ZERO_TIME, result := e.data, code := e.code, retryable := e.retryable);
            match e.kind.phase {
              case AttemptSucceeded => progress := progress.(status := CompensationSucceeded);
              case AttemptFailed => progress := progress.(status := CompensationFailed);
              case _ => progress := progress.(status := CompensationUnknown);
            }
          case AttemptRetry =>
            RegisteredRetry(registry, definition, found.value);
            var delay := ComputeRetryDelay(policy.retry, e.attempt);
            if !progress.status.CompensationFailed? || !progress.retryable ||
               progress.attempt >= policy.retry.maxAttempts || e.attempt != progress.attempt ||
               e.dueAt != e.occurredAt + delay {
              return false;
            }
            progress := progress.(status := CompensationRetryWaiting, dueAt := e.dueAt);
        }
      }
      compensations := compensations[e.stepName := progress];
      ok := true;
    }

    method ApplyOperator(e: HistoryEvent) returns (ok: bool)
      modifies this`operatorActions, this`pendingOperator
      ensures var record := R.ApplyOperator(old(Snapshot()), e);
              && ok == record.Some?
              && operatorActions == (if ok then old(operatorActions) + [record.value] else old(operatorActions))
              && pendingOperator == (if ok then record.value.action else old(pendingOperator))
    {
      if pendingOperator != NoAction {
        return false;
      }
      var audit := DecodeOperatorAudit(e.data);
      if audit.None? {
        return false;
      }
      operatorActions := operatorActions + [OperatorRecord(e.idempotencyKey, audit.value.action, audit.value.actor,
                                                           audit.value.reason, e.occurredAt)];
      pendingOperator := audit.value.action;
      ok := true;
    }

    method Migrate(registry: Registry, e: HistoryEvent) returns (failure: Option<Error>)
      modifies this`definition, this`input
      ensures var next := ApplyMigration(registry, old(Snapshot()), e);
              if next.Ok? then failure.None? && Snapshot() == next.value
              else failure == Some(next.error) && unchanged(this)
    {
      if !status.Paused? {
        return Some(InvalidTransition);
      }
      if e.definition.name != definition.name {
        return Some(InvalidMigration);
      }
      failure := CheckReference(registry, e.definition);
      if failure.Some? {
        return;
      }
      if MigrationKey(definition.name, definition.version, e.definition.version) !in registry.migrations {
        return Some(MigrationNotFound);
      }
      definition, input := e.definition, e.data;
    }

    method ApplyLifecycle(registry: Registry, change: LifecycleKind, e: HistoryEvent) returns (failure: Option<Error>)
      modifies this`status, this`result, this`definition, this`input, this`successorID
      ensures var next := R.ApplyLifecycle(registry, old(Snapshot()), change, e);
              if next.Ok? then failure.None? && Snapshot() == next.value
              else failure == Some(next.error) && unchanged(this)
    {
      hide ApplyMigration;
      match change {
        case InstanceStarted =>
          return Some(InvalidTransition);
        case InstancePaused =>
          if !status.Running? {
            return Some(InvalidTransition);
          }
          status := Paused;
        case InstanceResumed =>
          if !status.Paused? {
            return Some(InvalidTransition);
          }
          status := Running;
        case CancellationRequested =>
          if !status.Running? && !status.Paused? {
            return Some(InvalidTransition);
          }
          status := Cancelling;
        case InstanceCancelled =>
          if !status.Cancelling? {
            return Some(InvalidTransition);
          }
          status, result := Cancelled, e.data;
        case InstanceCompleted =>
          if !status.Running? {
            return Some(InvalidTransition);
          }
          status, result := Completed, e.data;
        case InstanceFailed =>
          if !status.Running? {
            return Some(InvalidTransition);
          }
          status, result := Failed, e.data;
        case InstanceTerminated =>
          status, result := Terminated, e.data;
        case DefinitionMigrated =>
          failure := Migrate(registry, e);
          return;
        case ContinuedAsNew =>
          if !status.Running? {
            return Some(InvalidTransition);
          }
          failure := CheckReference(registry, e.definition);
          if failure.Some? {
            return;
          }
          status, successorID := Continued, e.successorID;
      }
      failure := None;
    }

    method ApplyStart(registry: Registry, e: HistoryEvent) returns (failure: Option<Error>)
      requires result == EMPTY && successorID == NO_IDENT
      modifies this
      ensures failure.None? ==> R.ApplyStart(registry, e) == Ok(Snapshot())
      ensures failure.Some? ==> R.ApplyStart(registry, e) == Err(failure.value) && unchanged(this)
    {
      hide Resolves, CheckReference, R.ApplyStart;
      RefusedStart(registry, e);
      if !IsStart(e.kind) {
        return Some(InvalidTransition);
      }
      if e.sequence != 1 {
        return Some(HistoryConflict);
      }
      failure := CheckReference(registry, e.definition);
      if failure.Some? {
        return;
      }
      id, definition, status, sequence := e.instanceID, e.definition, Running, e.sequence;
      startedAt, updatedAt, input := e.occurredAt, e.occurredAt, e.data;
      ClearProgress();
      StartedBlank(registry, e);
    }

    method ClearProgress()
      modifies this`activities, this`timers, this`signals, this`races, this`children, this`compensations,
               this`operatorActions, this`pendingOperator
      ensures activities == map[] && timers == map[] && signals == map[] && races == map[] && children == map[]
      ensures compensations == map[] && operatorActions == [] && pendingOperator == NoAction
    {
      activities, timers, signals, races, children, compensations := map[], map[], map[], map[], map[], map[];
      operatorActions, pendingOperator := [], NoAction;
    }

    /** Runs the handler of one step event. */
    method DispatchStep(registry: Registry, e: HistoryEvent) returns (ok: bool)
      requires ValidRegistry(registry) && !e.kind.Lifecycle?
      modifies this`activities, this`timers, this`signals, this`races, this`children, this`compensations,
               this`operatorActions, this`pendingOperator
      ensures var next := Dispatch(registry, old(Snapshot()), e);
              if ok then next == Ok(Snapshot()) else next == Err(InvalidTransition) && unchanged(this)
    {
      hide R.ApplyActivity, R.ApplyTimer, R.ApplySignal, R.ApplyRace, R.ApplyChild, R.ApplyCompensation,
           R.ApplyOperator, R.ApplyLifecycle, ValidRegistry;
      match e.kind {
        case Activity(phase) => ok := ApplyActivity(registry, phase, e);
        case Compensation(_) => ok := ApplyCompensation(registry, e);
        case CompensationManuallyResolved => ok := ApplyCompensation(registry, e);
        case ChildStart(_) => ok := ApplyChild(registry, e);
        case ChildCompleted => ok := ApplyChild(registry, e);
        case ChildFailed => ok := ApplyChild(registry, e);
        case TimerScheduled => ok := ApplyWait(registry, e);
        case TimerFired => ok := ApplyWait(registry, e);
        case SignalReceived => ok := ApplyWait(registry, e);
        case RaceWon => ok := ApplyRace(registry, e);
        case OperatorCommandRecorded => ok := ApplyOperator(e);
      }
    }

    /** Dispatches one event to its handler. */
    method DispatchEvent(registry: Registry, e: HistoryEvent) returns (failure: Option<Error>)
      requires ValidRegistry(registry)
      modifies this
      ensures var next := Dispatch(registry, old(Snapshot()), e);
              if next.Ok? then failure.None? && Snapshot() == next.value
              else failure == Some(next.error) && unchanged(this)
    {
      if e.kind.Lifecycle? {
        hide R.ApplyLifecycle, ValidRegistry;
        failure := ApplyLifecycle(registry, e.kind.change, e);
      } else {
        hide Dispatch, ValidRegistry;
        var ok := DispatchStep(registry, e);
        failure := if ok then None else Some(InvalidTransition);
      }
    }

    method Apply(registry: Registry, e: HistoryEvent) returns (failure: Option<Error>)
      requires ValidRegistry(registry)
      requires sequence == 0 ==> Snapshot() == BLANK
      modifies this
      ensures var next := R.Apply(registry, old(Snapshot()), e);
              if next.Ok? then failure.None? && Snapshot() == next.value
              else failure == Some(next.error) && unchanged(this)
    {
      hide Dispatch, ValidRegistry, R.ApplyStart;
      if sequence == 0 {
        failure := ApplyStart(registry, e);
        return;
      }
      if e.instanceID != id || e.sequence != Next64(sequence) || e.occurredAt < updatedAt {
        return Some(HistoryConflict);
      }
      if Terminal(status) {
        return Some(InvalidTransition);
      }
      var completesOperator := pendingOperator != NoAction && CompletesAction(pendingOperator, e.kind);
      if pendingOperator != NoAction && !completesOperator {
        return Some(InvalidTransition);
      }
      failure := DispatchEvent(registry, e);
      if failure.Some? {
        return;
      }
      sequence, updatedAt := e.sequence, e.occurredAt;
      if completesOperator {
        pendingOperator := NoAction;
      }
    }
  }

  /** Sequence zero only before the first event: later sequences are those of accepted events. */
  lemma {:induction false} NonZeroAfterStart(registry: Registry, h: seq<HistoryEvent>)
    requires ValidEvents(h) && ApplyAll(registry, BLANK, h).Ok?
    ensures h == [] ==> ApplyAll(registry, BLANK, h).value == BLANK
    ensures h != [] ==> ApplyAll(registry, BLANK, h).value.sequence != 0
  {
    hide Dispatch, R.ApplyStart, ValidKindFields;
    if h != [] {
      var last := h[|h| - 1];
      assert ValidEvent(last);
      StartSequence(registry, last);
    }
  }

  lemma StartSequence(registry: Registry, e: HistoryEvent)
    ensures R.ApplyStart(registry, e).Ok? ==> R.ApplyStart(registry, e).value.sequence == 1
  {
  }

  /** The replay loop: an empty instance fed every event, refusing a dangling operator audit. */
  method ReplayEvents(registry: Registry, events: seq<HistoryEvent>) returns (result: Result<Instance>)
    requires ValidRegistry(registry) && ValidEvents(events)
    ensures result == ReplayHistory(registry, events)
  {
    hide R.Apply, ValidEvent, ValidRegistry;
    if |events| == 0 {
      return Err(EmptyHistory);
    }
    var instance := new ReplayedInstance();
    for n := 0 to |events|
      invariant ApplyAll(registry, BLANK, events[..n]) == Ok(instance.Snapshot())
    {
      assert events[..n + 1][..n] == events[..n];
      NonZeroAfterStart(registry, events[..n]);
      assert ApplyAll(registry, BLANK, events[..n + 1]) == R.Apply(registry, instance.Snapshot(), events[n]);
      var failure := instance.Apply(registry, events[n]);
      if failure.Some? {
        StopsEarly(registry, events, n + 1);
        return Err(failure.value);
      }
    }
    assert events[..|events|] == events;
    if instance.pendingOperator != NoAction {
      return Err(InvalidTransition);
    }
    result := Ok(instance.Snapshot());
  }

  /** A prefix replay refuses decides the whole history's error. */
  lemma StopsEarly(registry: Registry, events: seq<HistoryEvent>, n: nat)
    requires n <= |events| && ApplyAll(registry, BLANK, events[..n]).Err?
    ensures ApplyAll(registry, BLANK, events) == ApplyAll(registry, BLANK, events[..n])
  {
    hide R.Apply;
    assert events == events[..n] + events[n..];
    ApplyAllConcat(registry, BLANK, events[..n], events[n..]);
  }
}
