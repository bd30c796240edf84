/**
 * Planner guards against replay guards. Where a planner's guards imply replay's,
 * its whole plan replays on the instance it was made from, into the stated
 * state. Where they do not, replay accepts the plan exactly under the stated
 * extra condition.
 */
module PlannerSoundness {
  import opened Basics
  import opened Definitions
  import opened Backoff
  import opened Events
  import opened Replay
  import opened Transitions
  import opened Planners
  import opened Acceptance

  /** Replaying a plan's events on the planner's instance. */
  function Replayed(registry: Registry, i: Instance, plan: Option<Transition>): Result<Instance>
    requires plan.Some?
  {
    ApplyAll(registry, i, plan.value.events)
  }

  // --- activities ---------------------------------------------------------

  lemma ActivityScheduleSound(registry: Registry, s: ScheduleSpec)
    requires Settled(registry, s.instance) && NewActivitySchedule(s).Some?
    ensures Replayed(registry, s.instance, NewActivitySchedule(s)) ==
            Ok(Later(s.instance, s.at).(
                 activities := s.instance.activities[s.stepName := ActivityProgress(
                   s.stepName, ActivityReady, 0, NO_IDENT, ZERO_TIME, s.input, EMPTY, "", false)]))
  {
    hide Apply, ValidTransition, ValidEvent, Terminal;
    var i, e := s.instance, NewActivitySchedule(s).value.events[0];
    PinnedSteps(registry, i, s.definition);
    RunningIsLive(i.status);
    AcceptActivity(registry, i, e);
    ApplyOne(registry, i, e);
  }

  lemma RunningIsLive(status: InstanceStatus)
    ensures status.Running? || status.Paused? || status.Cancelling? ==> !Terminal(status)
  {
  }

  lemma ActivityStartSound(registry: Registry, s: StartSpec)
    requires Settled(registry, s.instance) && NewActivityAttemptStart(s).Some?
    ensures var dispatch := s.lease.work.payload;
            && dispatch.DispatchDocument? && dispatch.stepName in s.instance.activities
            && FindStep(s.definition.steps, dispatch.stepName, StepActivity).Some?
            && Replayed(registry, s.instance, NewActivityAttemptStart(s)) ==
               Ok(Later(s.instance, s.at).(
                    activities := s.instance.activities[dispatch.stepName := s.instance.activities[dispatch.stepName].(
                      status := ActivityRunning, attempt := dispatch.attempt, idempotencyKey := dispatch.key,
                      dueAt := s.at + FindStep(s.definition.steps, dispatch.stepName, StepActivity).value.timeout,
                      result := EMPTY, code := "", retryable := false)]))
  {
    hide Apply, ValidTransition, ValidEvent, Terminal, ValidLease, InsideLease;
    var i, e := s.instance, NewActivityAttemptStart(s).value.events[0];
    PinnedSteps(registry, i, s.definition);
    RunningIsLive(i.status);
    AcceptActivity(registry, i, e);
    ApplyOne(registry, i, e);
  }

  function OutcomeStatus(kind: OutcomeKind): ActivityStatus {
    match kind
    case OutcomeSucceeded => ActivitySucceeded
    case OutcomeFailed => ActivityFailed
    case OutcomeUnknown => ActivityUnknown
  }

  /** An outcome plan replays exactly when the instance has not ended meanwhile. */
  lemma ActivityOutcomeExactly(registry: Registry, s: OutcomeSpec)
    requires Settled(registry, s.instance) && NewActivityAttemptOutcome(s).Some?
    ensures Replayed(registry, s.instance, NewActivityAttemptOutcome(s)).Ok? <==> !Terminal(s.instance.status)
    ensures !Terminal(s.instance.status) ==>
              && s.stepName in s.instance.activities
              && Replayed(registry, s.instance, NewActivityAttemptOutcome(s)) ==
                 Ok(Later(s.instance, s.at).(
                      activities := s.instance.activities[s.stepName := s.instance.activities[s.stepName].(
                        status := OutcomeStatus(s.outcome.kind), dueAt := ZERO_TIME, result := s.outcome.data,
                        code := s.outcome.code, retryable := s.outcome.retryable)]))
  {
    hide Apply, ValidTransition, ValidEvent, Terminal;
    var i, e := s.instance, NewActivityAttemptOutcome(s).value.events[0];
    PinnedSteps(registry, i, s.definition);
    AcceptActivity(registry, i, e);
    ApplyOne(registry, i, e);
  }

  /** A retry plan replays exactly when the instance is still running. */
  lemma ActivityRetryExactly(registry: Registry, s: RetrySpec)
    requires Settled(registry, s.instance) && NewActivityRetry(s).Some?
    ensures Replayed(registry, s.instance, NewActivityRetry(s)).Ok? <==> s.instance.status.Running?
    ensures s.instance.status.Running? ==>
              && s.stepName in s.instance.activities && FindStep(s.definition.steps, s.stepName, StepActivity).Some?
              && var progress := s.instance.activities[s.stepName];
                 var policy := FindStep(s.definition.steps, s.stepName, StepActivity).value.retry;
                 Replayed(registry, s.instance, NewActivityRetry(s)) ==
                 Ok(Later(s.instance, s.at).(
                      activities := s.instance.activities[s.stepName := progress.(
                        status := ActivityRetryWaiting, dueAt := s.at + RetryDelay(policy, progress.attempt))]))
  {
    hide Apply, ValidTransition, ValidEvent, Terminal, RetryDelay;
    var i, e := s.instance, NewActivityRetry(s).value.events[0];
    PinnedSteps(registry, i, s.definition);
    RunningIsLive(i.status);
    AcceptActivity(registry, i, e);
    ApplyOne(registry, i, e);
  }

  // --- compensations ------------------------------------------------------

  lemma CompensationScheduleSound(registry: Registry, s: ScheduleSpec)
    requires Settled(registry, s.instance) && NewCompensationSchedule(s).Some?
    ensures Replayed(registry, s.instance, NewCompensationSchedule(s)) ==
            Ok(Later(s.instance, s.at).(
                 compensations := s.instance.compensations[s.stepName := CompensationProgress(
                   s.stepName, CompensationReady, s.instance.sequence + 1, 0, NO_IDENT, ZERO_TIME, s.input, EMPTY, "",
                   false)]))
  {
    hide Apply, ValidTransition, ValidEvent, Terminal;
    var i, e := s.instance, NewCompensationSchedule(s).value.events[0];
    PinnedSteps(registry, i, s.definition);
    RunningIsLive(i.status);
    AcceptCompensation(registry, i, e);
    ApplyOne(registry, i, e);
  }

  lemma CompensationStartSound(registry: Registry, s: StartSpec)
    requires Settled(registry, s.instance) && NewCompensationAttemptStart(s).Some?
    ensures var dispatch := s.lease.work.payload;
            && dispatch.DispatchDocument? && dispatch.stepName in s.instance.compensations
            && CompensationPolicy(s.definition.steps, dispatch.stepName).Some?
            && Replayed(registry, s.instance, NewCompensationAttemptStart(s)) ==
               Ok(Later(s.instance, s.at).(
                    compensations := s.instance.compensations[dispatch.stepName :=
                      s.instance.compensations[dispatch.stepName].(
                        status := CompensationRunning, attempt := dispatch.attempt, idempotencyKey := dispatch.key,
                        dueAt := s.at + CompensationPolicy(s.definition.steps, dispatch.stepName).value.timeout,
                        result := EMPTY, code := "", retryable := false)]))
  {
    hide Apply, ValidTransition, ValidEvent, Terminal, ValidLease, InsideLease;
    var i, e := s.instance, NewCompensationAttemptStart(s).value.events[0];
    PinnedSteps(registry, i, s.definition);
    RunningIsLive(i.status);
    AcceptCompensation(registry, i, e);
    ApplyOne(registry, i, e);
  }

  function CompensationOutcomeStatus(kind: OutcomeKind): CompensationStatus {
    match kind
    case OutcomeSucceeded => CompensationSucceeded
    case OutcomeFailed => CompensationFailed
    case OutcomeUnknown => CompensationUnknown
  }

  /** A compensation outcome plan replays exactly when the instance has not ended meanwhile. */
  lemma CompensationOutcomeExactly(registry: Registry, s: OutcomeSpec)
    requires Settled(registry, s.instance) && NewCompensationAttemptOutcome(s).Some?
    ensures Replayed(registry, s.instance, NewCompensationAttemptOutcome(s)).Ok? <==> !Terminal(s.instance.status)
    ensures !Terminal(s.instance.status) ==>
              && s.stepName in s.instance.compensations
              && Replayed(registry, s.instance, NewCompensationAttemptOutcome(s)) ==
                 Ok(Later(s.instance, s.at).(
                      compensations := s.instance.compensations[s.stepName := s.instance.compensations[s.stepName].(
                        status := CompensationOutcomeStatus(s.outcome.kind), dueAt := ZERO_TIME,
                        result := s.outcome.data, code := s.outcome.code, retryable := s.outcome.retryable)]))
  {
    hide Apply, ValidTransition, ValidEvent, Terminal;
    var i, e := s.instance, NewCompensationAttemptOutcome(s).value.events[0];
    PinnedSteps(registry, i, s.definition);
    AcceptCompensation(registry, i, e);
    ApplyOne(registry, i, e);
  }

  lemma CompensationRetrySound(registry: Registry, s: RetrySpec)
    requires Settled(registry, s.instance) && NewCompensationRetry(s).Some?
    ensures && s.stepName in s.instance.compensations && CompensationPolicy(s.definition.steps, s.stepName).Some?
            && var progress := s.instance.compensations[s.stepName];
               var policy := CompensationPolicy(s.definition.steps, s.stepName).value.retry;
               Replayed(registry, s.instance, NewCompensationRetry(s)) ==
               Ok(Later(s.instance, s.at).(
                    compensations := s.instance.compensations[s.stepName := progress.(
                      status := CompensationRetryWaiting, dueAt := s.at + RetryDelay(policy, progress.attempt))]))
  {
    hide Apply, ValidTransition, ValidEvent, Terminal, RetryDelay;
    var i, e := s.instance, NewCompensationRetry(s).value.events[0];
    PinnedSteps(registry, i, s.definition);
    RunningIsLive(i.status);
    AcceptCompensation(registry, i, e);
    ApplyOne(registry, i, e);
  }

  // --- children -----------------------------------------------------------

  /** A compiled registry resolves every child pin of its definitions. */
  lemma ChildPinResolves(registry: Registry, d: Definition, step: StepSpec)
    requires ValidRegistry(registry) && step in d.steps && step.kind == StepChild
    requires DefinitionKey(d.name, d.version) in registry.definitions
    requires registry.definitions[DefinitionKey(d.name, d.version)] == d
    ensures Resolves(registry, step.childDefinition)
  {
    assert ChildPinsResolve(registry, d);
  }

  lemma ChildScheduleSound(registry: Registry, s: ChildScheduleSpec)
    requires ValidRegistry(registry) && Settled(registry, s.instance) && NewChildSchedule(s).Some?
    ensures FindStep(s.definition.steps, s.stepName, StepChild).Some?
    ensures Replayed(registry, s.instance, NewChildSchedule(s)) ==
            Ok(Later(s.instance, s.at).(
                 children := s.instance.children[s.stepName := ChildProgress(
                   s.stepName, s.childID, FindStep(s.definition.steps, s.stepName, StepChild).value.childDefinition,
                   ChildIsScheduled, s.input, EMPTY, "", 0, NO_IDENT, ZERO_TIME, false)]))
  {
    hide Apply, ValidTransition, ValidEvent, Terminal, ValidRegistry;
    var i, e := s.instance, NewChildSchedule(s).value.events[0];
    PinnedSteps(registry, i, s.definition);
    ChildPinResolves(registry, s.definition, FindStep(s.definition.steps, s.stepName, StepChild).value);
    RunningIsLive(i.status);
    AcceptChild(registry, i, e);
    ApplyOne(registry, i, e);
  }

  lemma ChildStartSound(registry: Registry, s: StartSpec)
    requires Settled(registry, s.instance) && NewChildStartAttempt(s).Some?
    ensures var dispatch := s.lease.work.payload;
            && dispatch.ChildDocument? && dispatch.stepName in s.instance.children
            && FindStep(s.definition.steps, dispatch.stepName, StepChild).Some?
            && Replayed(registry, s.instance, NewChildStartAttempt(s)) ==
               Ok(Later(s.instance, s.at).(
                    children := s.instance.children[dispatch.stepName := s.instance.children[dispatch.stepName].(
                      status := ChildStartRunning, attempt := dispatch.attempt, idempotencyKey := dispatch.key,
                      dueAt := s.at + FindStep(s.definition.steps, dispatch.stepName, StepChild).value.timeout,
                      code := "", retryable := false)]))
  {
    hide Apply, ValidTransition, ValidEvent, Terminal, ValidLease;
    var i, e := s.instance, NewChildStartAttempt(s).value.events[0];
    PinnedSteps(registry, i, s.definition);
    RunningIsLive(i.status);
    AcceptChild(registry, i, e);
    ApplyOne(registry, i, e);
  }

  function StartedChild(progress: ChildProgress, o: Outcome): ChildProgress {
    match o.kind
    case OutcomeSucceeded => progress.(status := ChildActive, dueAt := ZERO_TIME)
    case OutcomeFailed =>
      progress.(status := ChildStartHasFailed, dueAt := ZERO_TIME, code := o.code, retryable := o.retryable)
    case OutcomeUnknown =>
      progress.(status := ChildStartIsUnknown, dueAt := ZERO_TIME, code := o.code, retryable := false)
  }

  /** A creation outcome plan replays exactly when the current definition still has the child step. */
  lemma ChildStartOutcomeExactly(registry: Registry, s: ChildOutcomeSpec)
    requires Settled(registry, s.instance) && NewChildStartAttemptOutcome(s).Some?
    ensures Replayed(registry, s.instance, NewChildStartAttemptOutcome(s)).Ok? <==>
            FindStep(s.definition.steps, s.stepName, StepChild).Some?
    ensures FindStep(s.definition.steps, s.stepName, StepChild).Some? ==>
              && s.stepName in s.instance.children
              && Replayed(registry, s.instance, NewChildStartAttemptOutcome(s)) ==
                 Ok(Later(s.instance, s.at).(
                      children := s.instance.children[s.stepName :=
                        StartedChild(s.instance.children[s.stepName], s.outcome)]))
  {
    hide Apply, ValidTransition, ValidEvent, Terminal;
    var i, e := s.instance, NewChildStartAttemptOutcome(s).value.events[0];
    PinnedSteps(registry, i, s.definition);
    RunningIsLive(i.status);
    AcceptChild(registry, i, e);
    ApplyOne(registry, i, e);
  }

  lemma ChildStartRetrySound(registry: Registry, s: RetrySpec)
    requires Settled(registry, s.instance) && NewChildStartRetry(s).Some?
    ensures && s.stepName in s.instance.children && FindStep(s.definition.steps, s.stepName, StepChild).Some?
            && var progress := s.instance.children[s.stepName];
               var policy := FindStep(s.definition.steps, s.stepName, StepChild).value.retry;
               Replayed(registry, s.instance, NewChildStartRetry(s)) ==
               Ok(Later(s.instance, s.at).(
                    children := s.instance.children[s.stepName := progress.(
                      status := ChildRetryWaiting, dueAt := s.at + RetryDelay(policy, progress.attempt))]))
  {
    hide Apply, ValidTransition, ValidEvent, Terminal, RetryDelay;
    var i, e := s.instance, NewChildStartRetry(s).value.events[0];
    PinnedSteps(registry, i, s.definition);
    RunningIsLive(i.status);
    AcceptChild(registry, i, e);
    ApplyOne(registry, i, e);
  }

  lemma ChildOutcomeSound(registry: Registry, s: ChildResultSpec)
    requires Settled(registry, s.instance) && NewChildOutcome(s).Some?
    ensures s.stepName in s.instance.children
    ensures Replayed(registry, s.instance, NewChildOutcome(s)) ==
            Ok(Later(s.instance, s.at).(
                 children := s.instance.children[s.stepName := s.instance.children[s.stepName].(
                   result := s.result, code := s.failureCode,
                   status := if s.failureCode == "" then ChildSucceeded else ChildHasFailed)]))
  {
    hide Apply, ValidTransition, ValidEvent, Terminal;
    var i, e := s.instance, NewChildOutcome(s).value.events[0];
    PinnedSteps(registry, i, s.definition);
    RunningIsLive(i.status);
    AcceptChild(registry, i, e);
    ApplyOne(registry, i, e);
  }

  // --- waits --------------------------------------------------------------

  /** The plan addresses this instance at its current position and pin, as a commit demands. */
  predicate Addresses(t: Transition, i: Instance) {
    t.instanceID == i.id && t.expectedSequence == i.sequence && t.definition == i.definition
  }

  /** A timer plan, made from a cursor only, replays exactly under the guards it leaves to the caller. */
  lemma TimerScheduleExactly(registry: Registry, i: Instance, s: TimerScheduleSpec)
    requires Settled(registry, i) && NewTimerSchedule(s).Some? && Addresses(NewTimerSchedule(s).value, i)
    ensures Replayed(registry, i, NewTimerSchedule(s)).Ok? <==>
            i.status.Running? && s.stepName !in i.timers && s.at >= i.updatedAt
    ensures FindStep(s.definition.steps, s.stepName, StepTimer).Some?
    ensures Replayed(registry, i, NewTimerSchedule(s)).Ok? ==>
              Replayed(registry, i, NewTimerSchedule(s)) ==
              Ok(Later(i, s.at).(timers := i.timers[s.stepName := TimerProgress(
                   s.stepName, false, s.at + FindStep(s.definition.steps, s.stepName, StepTimer).value.timeout,
                   ZERO_TIME)]))
  {
    hide Apply, ValidTransition, ValidEvent, Terminal;
    var e := NewTimerSchedule(s).value.events[0];
    PinnedSteps(registry, i, s.definition);
    RunningIsLive(i.status);
    ApplyOne(registry, i, e);
    if s.at >= i.updatedAt {
      AcceptTimer(registry, i, e);
    } else {
      RefusesEarlier(registry, i, e);
    }
  }

  lemma RefusesEarlier(registry: Registry, i: Instance, e: HistoryEvent)
    requires i.sequence != 0 && e.occurredAt < i.updatedAt
    ensures Apply(registry, i, e) == Err(HistoryConflict)
  {
    hide Dispatch;
  }

  /** A timer firing replays exactly when the timer is waiting and due on a running instance. */
  lemma TimerFireExactly(registry: Registry, i: Instance, s: TimerFireSpec)
    requires Settled(registry, i) && NewTimerFire(s).Some? && Addresses(NewTimerFire(s).value, i)
    ensures var name := s.lease.work.payload.AsName();
            && (Replayed(registry, i, NewTimerFire(s)).Ok? <==>
                  && i.status.Running? && name in i.timers && !i.timers[name].fired
                  && s.at >= i.timers[name].dueAt && s.at >= i.updatedAt)
            && (Replayed(registry, i, NewTimerFire(s)).Ok? ==>
                  Replayed(registry, i, NewTimerFire(s)) ==
                  Ok(Later(i, s.at).(timers := i.timers[name := i.timers[name].(fired := true, firedAt := s.at)])))
  {
    hide Apply, ValidTransition, ValidEvent, Terminal, ValidLease;
    var e := NewTimerFire(s).value.events[0];
    PinnedSteps(registry, i, s.definition);
    RunningIsLive(i.status);
    ApplyOne(registry, i, e);
    if s.at >= i.updatedAt {
      AcceptTimer(registry, i, e);
    } else {
      RefusesEarlier(registry, i, e);
    }
  }

  /** A signal replays exactly when it is the first for its step on a running or paused instance. */
  lemma SignalAcceptanceExactly(registry: Registry, i: Instance, s: SignalSpec)
    requires Settled(registry, i) && NewSignalAcceptance(s).Some? && Addresses(NewSignalAcceptance(s).value, i)
    ensures Replayed(registry, i, NewSignalAcceptance(s)).Ok? <==>
            (i.status.Running? || i.status.Paused?) && s.stepName !in i.signals && s.at >= i.updatedAt
    ensures Replayed(registry, i, NewSignalAcceptance(s)).Ok? ==>
              Replayed(registry, i, NewSignalAcceptance(s)) ==
              Ok(Later(i, s.at).(signals := i.signals[s.stepName :=
                   SignalProgress(s.stepName, s.signalID, s.at, s.payload)]))
  {
    hide Apply, ValidTransition, ValidEvent, Terminal;
    var e := NewSignalAcceptance(s).value.events[0];
    PinnedSteps(registry, i, s.definition);
    RunningIsLive(i.status);
    ApplyOne(registry, i, e);
    if s.at >= i.updatedAt {
      AcceptSignal(registry, i, e);
    } else {
      RefusesEarlier(registry, i, e);
    }
  }
}
