/**
 * The other half of planner soundness: a planner refuses nothing that replay
 * would accept. Each planner's answer is the well-formed plan around one event
 * whenever the request itself is in order and replay accepts that event, and
 * for most planners exactly then.
 */
module PlannerCompleteness {
  import opened Basics
  import opened Definitions
  import opened Backoff
  import opened Events
  import opened Replay
  import opened Transitions
  import opened Planners
  import opened Acceptance
  import opened PlannerSoundness
  import opened OperatorSoundness

  // --- well-formed plans --------------------------------------------------

  lemma OneEventPlan(t: Transition)
    requires |t.events| == 1 && |t.work| <= 1
    ensures EventBytes(t.events) == t.events[0].data.Size()
    ensures WorkBytes(t.work) == if t.work == [] then 0 else t.work[0].payload.Size()
  {
    assert t.events[..0] == [];
    if t.work != [] {
      assert t.work[..0] == [];
    }
  }

  /** A plan of one well-formed event and at most one work item hanging off it is accepted. */
  lemma PlanAccepted(t: Transition)
    requires |t.events| == 1 && |t.work| <= 1 && ValidEvent(t.events[0]) && (t.work != [] ==> ValidWork(t.work[0]))
    requires ValidIdent(t.id) && ValidIdent(t.instanceID) && ValidReference(t.definition)
    requires 0 < t.expectedSequence < MAX_UINT64 && !IsStart(t.events[0].kind)
    requires t.events[0].sequence == t.expectedSequence + 1 && t.events[0].instanceID == t.instanceID
    requires t.events[0].data.Size() + (if t.work == [] then 0 else t.work[0].payload.Size()) <= MAX_PAYLOAD_BYTES
    requires t.work != [] ==> t.work[0].instanceID == t.instanceID && t.work[0].sequence == t.events[0].sequence &&
                              t.work[0].availableAt >= t.events[0].occurredAt
    ensures Plan(t.id, t.instanceID, t.expectedSequence, t.definition, t.events, t.work) == Some(t)
  {
    hide ValidEvent, ValidWork;
    OneEventPlan(t);
  }

  // --- activities ---------------------------------------------------------

  /** What one event does to an instance, with no plan around it. */
  predicate Accepts(registry: Registry, i: Instance, e: HistoryEvent) {
    Apply(registry, i, e).Ok?
  }

  /** Some planners leave it to the caller that the instance runs: here it is taken to. */
  function AsRunning(i: Instance): Instance {
    i.(status := Running)
  }

  lemma ActivityGuards(registry: Registry, i: Instance, e: HistoryEvent, d: Definition)
    requires Settled(registry, i) && d.Reference() == i.definition && e.kind.Activity?
    requires e.instanceID == i.id && e.sequence == i.sequence + 1
    ensures var step := FindStep(d.steps, e.stepName, StepActivity);
            Accepts(registry, i, e) <==>
            e.occurredAt >= i.updatedAt && !Terminal(i.status) && step.Some? &&
            ActivityNext(step.value, i.status, Lookup(i.activities, e.stepName), e.kind.phase, e).Some?
  {
    hide Apply, Terminal, ActivityNext;
    PinnedSteps(registry, i, d);
    if e.occurredAt >= i.updatedAt {
      AcceptActivity(registry, i, e);
    } else {
      RefusesEarlier(registry, i, e);
    }
  }

  lemma ActivityScheduleAccepts(registry: Registry, s: ScheduleSpec)
    requires Settled(registry, s.instance)
    ensures var i := s.instance;
            var e := EventOn(i, Activity(AttemptAdmitted), s.at).(stepName := s.stepName, data := s.input);
            var w := PendingWork(s.workID, WorkActivity, i.id, e.sequence, s.at, s.deadline,
                                 DispatchDocument(s.stepName, 1, s.key), s.routing.tenantID, s.routing.correlationID);
            NewActivitySchedule(s) ==
            if s.attempt == 1 && ValidIdent(s.key) && s.definition.Reference() == i.definition && Accepts(registry, i, e)
            then PlanOn(s.transitionID, i, [e], [w]) else None
  {
    hide Apply, PlanOn;
    var e := EventOn(s.instance, Activity(AttemptAdmitted), s.at).(stepName := s.stepName, data := s.input);
    if s.definition.Reference() == s.instance.definition {
      ActivityGuards(registry, s.instance, e, s.definition);
    }
  }

  /** The lease is for this instance and kind, and its work item not older than the instance. */
  predicate LeaseFits(l: WorkLease, kind: WorkKind, i: Instance) {
    ValidLease(l) && l.work.kind == kind && l.work.instanceID == i.id && l.work.sequence <= i.sequence
  }

  function TimeoutOf(step: Option<StepSpec>): Duration {
    if step.None? then 0 else step.value.timeout
  }

  /** The start event a dispatch asks for. */
  function StartEvent(i: Instance, kind: EventKind, payload: Payload, at: Time, timeout: Duration): HistoryEvent
    requires !payload.Text?
  {
    EventOn(i, kind, at).(stepName := payload.stepName, attempt := payload.attempt, idempotencyKey := payload.key,
                          dueAt := at + timeout)
  }

  lemma ActivityStartAccepts(registry: Registry, s: StartSpec)
    requires Settled(registry, s.instance) && s.lease.work.payload.DispatchDocument?
    ensures var i, payload := s.instance, s.lease.work.payload;
            var timeout := TimeoutOf(FindStep(s.definition.steps, payload.stepName, StepActivity));
            var e := StartEvent(i, Activity(AttemptStarted), payload, s.at, timeout);
            NewActivityAttemptStart(s) ==
            if LeaseFits(s.lease, WorkActivity, i) && DecodeDispatch(payload).Some? &&
               s.definition.Reference() == i.definition && InsideLease(s.lease, s.at, e.dueAt) && Accepts(registry, i, e)
            then PlanOn(s.transitionID, i, [e], []) else None
  {
    hide Apply, PlanOn, ValidLease, InsideLease, StableName, ValidIdent;
    var i, payload := s.instance, s.lease.work.payload;
    var timeout := TimeoutOf(FindStep(s.definition.steps, payload.stepName, StepActivity));
    var e := StartEvent(i, Activity(AttemptStarted), payload, s.at, timeout);
    if s.definition.Reference() == i.definition {
      ActivityGuards(registry, i, e, s.definition);
    }
  }

  /** An outcome is well-formed exactly when an event that reports it can be. */
  lemma OutcomeFields(o: Outcome, e: HistoryEvent)
    requires e.kind == Activity(OutcomePhase(o.kind)) || e.kind == Compensation(OutcomePhase(o.kind))
    requires e.code == o.code && e.retryable == o.retryable && e.data == o.data
    ensures ValidEvent(e) ==> ValidOutcome(o)
  {
    hide ValidIdent, StableName;
  }

  /** A malformed outcome has no plan for either family. */
  lemma MalformedUnplanned(s: OutcomeSpec)
    requires !ValidOutcome(s.outcome)
    ensures forall kind: EventKind | kind == Activity(OutcomePhase(s.outcome.kind)) ||
                                     kind == Compensation(OutcomePhase(s.outcome.kind)) ::
              PlanOn(s.transitionID, s.instance,
                     [EventOn(s.instance, kind, s.at).(
                        stepName := s.stepName, attempt := s.attempt, code := s.outcome.code,
                        retryable := s.outcome.retryable, data := s.outcome.data)], []).None?
  {
    hide ValidOutcome, ValidEvent, Plan;
    forall kind: EventKind | kind == Activity(OutcomePhase(s.outcome.kind)) ||
                             kind == Compensation(OutcomePhase(s.outcome.kind))
      ensures PlanOn(s.transitionID, s.instance,
                     [EventOn(s.instance, kind, s.at).(
                        stepName := s.stepName, attempt := s.attempt, code := s.outcome.code,
                        retryable := s.outcome.retryable, data := s.outcome.data)], []).None?
    {
      var e := EventOn(s.instance, kind, s.at).(
        stepName := s.stepName, attempt := s.attempt, code := s.outcome.code, retryable := s.outcome.retryable,
        data := s.outcome.data);
      OutcomeFields(s.outcome, e);
      Unplanned(Transition(s.transitionID, s.instance.id, s.instance.sequence, s.instance.definition, [e], []));
    }
  }

  lemma MalformedStartUnplanned(s: ChildOutcomeSpec)
    requires s.outcome.data == EMPTY && !ValidStartOutcome(s.outcome)
    ensures PlanOn(s.transitionID, s.instance,
                   [EventOn(s.instance, ChildStart(OutcomePhase(s.outcome.kind)), s.at).(
                      successorID := s.childID, stepName := s.stepName, attempt := s.attempt, code := s.outcome.code,
                      retryable := s.outcome.retryable)], []).None?
  {
    hide ValidIdent, StableName, Plan;
    var e := EventOn(s.instance, ChildStart(OutcomePhase(s.outcome.kind)), s.at).(
      successorID := s.childID, stepName := s.stepName, attempt := s.attempt, code := s.outcome.code,
      retryable := s.outcome.retryable);
    assert !ValidEvent(e);
    Unplanned(Transition(s.transitionID, s.instance.id, s.instance.sequence, s.instance.definition, [e], []));
  }

  lemma ActivityOutcomeAccepts(registry: Registry, s: OutcomeSpec)
    requires Settled(registry, s.instance)
    ensures var i := s.instance;
            var e := EventOn(i, Activity(OutcomePhase(s.outcome.kind)), s.at).(
              stepName := s.stepName, attempt := s.attempt, code := s.outcome.code, retryable := s.outcome.retryable,
              data := s.outcome.data);
            NewActivityAttemptOutcome(s) ==
            if s.definition.Reference() == i.definition && Accepts(registry, AsRunning(i), e)
            then PlanOn(s.transitionID, i, [e], []) else None
  {
    hide Apply, PlanOn, ValidOutcome;
    if !ValidOutcome(s.outcome) {
      MalformedUnplanned(s);
    }
    var i := s.instance;
    var e := EventOn(i, Activity(OutcomePhase(s.outcome.kind)), s.at).(
      stepName := s.stepName, attempt := s.attempt, code := s.outcome.code, retryable := s.outcome.retryable,
      data := s.outcome.data);
    if s.definition.Reference() == i.definition {
      ActivityGuards(registry, AsRunning(i), e, s.definition);
    }
  }

  /** The retry event of an attempt and the work item of the next one. */
  function RetryEvent(i: Instance, kind: EventKind, name: string, attempt: Uint32, policy: RetryPolicy, at: Time)
    : HistoryEvent
  {
    EventOn(i, kind, at).(stepName := name, attempt := attempt, dueAt := at + RetryDelay(policy, attempt))
  }

  function NextWork(s: RetrySpec, kind: WorkKind, e: HistoryEvent, payload: Payload): PendingWork {
    PendingWork(s.workID, kind, s.instance.id, e.sequence, e.dueAt, s.deadline, payload, s.routing.tenantID,
                s.routing.correlationID)
  }

  lemma ActivityRetryAccepts(registry: Registry, s: RetrySpec)
    requires Settled(registry, s.instance)
    ensures var i, step := s.instance, FindStep(s.definition.steps, s.stepName, StepActivity);
            NewActivityRetry(s) ==
            if s.stepName in i.activities && step.Some? && ValidIdent(s.key) && s.definition.Reference() == i.definition then
              var attempt := i.activities[s.stepName].attempt;
              var e := RetryEvent(i, Activity(AttemptRetry), s.stepName, attempt, step.value.retry, s.at);
              var w := NextWork(s, WorkActivity, e, DispatchDocument(s.stepName, Next32(attempt), s.key));
              if Accepts(registry, AsRunning(i), e) then PlanOn(s.transitionID, i, [e], [w]) else None
            else None
  {
    hide Apply, PlanOn, RetryDelay;
    var i, step := s.instance, FindStep(s.definition.steps, s.stepName, StepActivity);
    if s.stepName in i.activities && step.Some? && s.definition.Reference() == i.definition {
      var e := RetryEvent(i, Activity(AttemptRetry), s.stepName, i.activities[s.stepName].attempt, step.value.retry, s.at);
      ActivityGuards(registry, AsRunning(i), e, s.definition);
    }
  }

  // --- compensations ------------------------------------------------------

  lemma CompensationGuards(registry: Registry, i: Instance, e: HistoryEvent, d: Definition)
    requires Settled(registry, i) && d.Reference() == i.definition && e.kind.Compensation?
    requires e.instanceID == i.id && e.sequence == i.sequence + 1
    ensures var policy := CompensationPolicy(d.steps, e.stepName);
            Accepts(registry, i, e) <==>
            e.occurredAt >= i.updatedAt && !Terminal(i.status) && policy.Some? &&
            CompensationNext(policy.value, i.status, Lookup(i.activities, e.stepName), Lookup(i.compensations, e.stepName),
                             e.kind.phase, e).Some?
  {
    hide Apply, Terminal, CompensationNext;
    PinnedSteps(registry, i, d);
    if e.occurredAt >= i.updatedAt {
      AcceptCompensation(registry, i, e);
    } else {
      RefusesEarlier(registry, i, e);
    }
  }

  lemma CompensableIsLive(status: InstanceStatus)
    ensures Compensable(status) ==> !Terminal(status)
  {
  }

  lemma CompensationScheduleAccepts(registry: Registry, s: ScheduleSpec)
    requires Settled(registry, s.instance)
    ensures var i, step := s.instance, FindStep(s.definition.steps, s.stepName, StepActivity);
            var e := EventOn(i, Compensation(AttemptAdmitted), s.at).(stepName := s.stepName, data := s.input);
            var w := PendingWork(s.workID, WorkCompensation, i.id, e.sequence, s.at, s.deadline,
                                 DispatchDocument(s.stepName, 1, s.key), s.routing.tenantID, s.routing.correlationID);
            NewCompensationSchedule(s) ==
            if s.attempt == 1 && ValidIdent(s.key) && s.definition.Reference() == i.definition &&
               (step.Some? ==> s.input.Size() <= step.value.inputLimit) && Accepts(registry, i, e)
            then PlanOn(s.transitionID, i, [e], [w]) else None
  {
    hide Apply, PlanOn, Terminal;
    var e := EventOn(s.instance, Compensation(AttemptAdmitted), s.at).(stepName := s.stepName, data := s.input);
    CompensableIsLive(s.instance.status);
    if s.definition.Reference() == s.instance.definition {
      CompensationGuards(registry, s.instance, e, s.definition);
    }
  }

  function PolicyTimeout(policy: Option<CompensationSpec>): Duration {
    if policy.None? then 0 else policy.value.timeout
  }

  lemma CompensationStartAccepts(registry: Registry, s: StartSpec)
    requires Settled(registry, s.instance) && s.lease.work.payload.DispatchDocument?
    ensures var i, payload := s.instance, s.lease.work.payload;
            var timeout := PolicyTimeout(CompensationPolicy(s.definition.steps, payload.stepName));
            var e := StartEvent(i, Compensation(AttemptStarted), payload, s.at, timeout);
            NewCompensationAttemptStart(s) ==
            if LeaseFits(s.lease, WorkCompensation, i) && DecodeDispatch(payload).Some? && Compensable(i.status) &&
               s.definition.Reference() == i.definition && InsideLease(s.lease, s.at, e.dueAt) && Accepts(registry, i, e)
            then PlanOn(s.transitionID, i, [e], []) else None
  {
    hide Apply, PlanOn, ValidLease, InsideLease, StableName, ValidIdent, Terminal;
    var i, payload := s.instance, s.lease.work.payload;
    var timeout := PolicyTimeout(CompensationPolicy(s.definition.steps, payload.stepName));
    var e := StartEvent(i, Compensation(AttemptStarted), payload, s.at, timeout);
    CompensableIsLive(i.status);
    if s.definition.Reference() == i.definition {
      CompensationGuards(registry, i, e, s.definition);
    }
  }

  lemma CompensationOutcomeAccepts(registry: Registry, s: OutcomeSpec)
    requires Settled(registry, s.instance)
    ensures var i := s.instance;
            var e := EventOn(i, Compensation(OutcomePhase(s.outcome.kind)), s.at).(
              stepName := s.stepName, attempt := s.attempt, code := s.outcome.code, retryable := s.outcome.retryable,
              data := s.outcome.data);
            NewCompensationAttemptOutcome(s) ==
            if s.definition.Reference() == i.definition && Accepts(registry, AsRunning(i), e)
            then PlanOn(s.transitionID, i, [e], []) else None
  {
    hide Apply, PlanOn, ValidOutcome;
    if !ValidOutcome(s.outcome) {
      MalformedUnplanned(s);
    }
    var i := s.instance;
    var e := EventOn(i, Compensation(OutcomePhase(s.outcome.kind)), s.at).(
      stepName := s.stepName, attempt := s.attempt, code := s.outcome.code, retryable := s.outcome.retryable,
      data := s.outcome.data);
    if s.definition.Reference() == i.definition {
      CompensationGuards(registry, AsRunning(i), e, s.definition);
    }
  }

  lemma CompensationRetryAccepts(registry: Registry, s: RetrySpec)
    requires Settled(registry, s.instance)
    ensures var i, policy := s.instance, CompensationPolicy(s.definition.steps, s.stepName);
            NewCompensationRetry(s) ==
            if s.stepName in i.compensations && policy.Some? && ValidIdent(s.key) &&
               s.definition.Reference() == i.definition && Compensable(i.status)
            then
              var attempt := i.compensations[s.stepName].attempt;
              var e := RetryEvent(i, Compensation(AttemptRetry), s.stepName, attempt, policy.value.retry, s.at);
              var w := NextWork(s, WorkCompensation, e, DispatchDocument(s.stepName, Next32(attempt), s.key));
              if Accepts(registry, i, e) then PlanOn(s.transitionID, i, [e], [w]) else None
            else None
  {
    hide Apply, PlanOn, RetryDelay, Terminal;
    var i, policy := s.instance, CompensationPolicy(s.definition.steps, s.stepName);
    CompensableIsLive(i.status);
    if s.stepName in i.compensations && policy.Some? && s.definition.Reference() == i.definition {
      var e := RetryEvent(i, Compensation(AttemptRetry), s.stepName, i.compensations[s.stepName].attempt,
                          policy.value.retry, s.at);
      CompensationGuards(registry, i, e, s.definition);
    }
  }

  // --- children -----------------------------------------------------------

  lemma ChildGuards(registry: Registry, i: Instance, e: HistoryEvent, d: Definition)
    requires Settled(registry, i) && d.Reference() == i.definition && IsChildEvent(e.kind)
    requires e.instanceID == i.id && e.sequence == i.sequence + 1
    ensures var step := FindStep(d.steps, e.stepName, StepChild);
            Accepts(registry, i, e) <==>
            e.occurredAt >= i.updatedAt && i.status.Running? && step.Some? &&
            if e.kind.ChildStart? then
              ChildStartNext(registry, step.value, Lookup(i.children, e.stepName), e.kind.phase, e).Some?
            else ChildOutcomeNext(step.value, Lookup(i.children, e.stepName), e).Some?
  {
    hide Apply, Terminal, ChildStartNext, ChildOutcomeNext;
    PinnedSteps(registry, i, d);
    RunningIsLive(i.status);
    if e.occurredAt >= i.updatedAt {
      AcceptChild(registry, i, e);
    } else {
      RefusesEarlier(registry, i, e);
    }
  }

  lemma PinnedChildResolves(registry: Registry, i: Instance, d: Definition, name: string)
    requires ValidRegistry(registry) && Settled(registry, i) && d.Reference() == i.definition
    requires FindStep(d.steps, name, StepChild).Some?
    ensures Resolves(registry, FindStep(d.steps, name, StepChild).value.childDefinition)
  {
    hide ValidDefinition;
    PinnedSteps(registry, i, d);
  }

  lemma ChildScheduleAccepts(registry: Registry, s: ChildScheduleSpec)
    requires ValidRegistry(registry) && Settled(registry, s.instance)
    ensures var i, step := s.instance, FindStep(s.definition.steps, s.stepName, StepChild);
            NewChildSchedule(s) ==
            if step.Some? && ValidIdent(s.childID) && s.definition.Reference() == i.definition then
              var pin := step.value.childDefinition;
              var e := EventOn(i, ChildStart(AttemptAdmitted), s.at).(
                definition := pin, successorID := s.childID, stepName := s.stepName, data := s.input);
              var w := PendingWork(s.workID, WorkChild, i.id, e.sequence, s.at, s.deadline,
                                   ChildDocument(s.stepName, s.childID, pin, 1, s.childID), s.routing.tenantID,
                                   s.routing.correlationID);
              if Accepts(registry, i, e) then PlanOn(s.transitionID, i, [e], [w]) else None
            else None
  {
    hide Apply, PlanOn, ValidRegistry, Resolves;
    var i, step := s.instance, FindStep(s.definition.steps, s.stepName, StepChild);
    if step.Some? && s.definition.Reference() == i.definition {
      var e := EventOn(i, ChildStart(AttemptAdmitted), s.at).(
        definition := step.value.childDefinition, successorID := s.childID, stepName := s.stepName, data := s.input);
      PinnedChildResolves(registry, i, s.definition, s.stepName);
      ChildGuards(registry, i, e, s.definition);
    }
  }

  lemma ChildStartAccepts(registry: Registry, s: StartSpec)
    requires Settled(registry, s.instance) && s.lease.work.payload.ChildDocument?
    ensures var i, payload := s.instance, s.lease.work.payload;
            var timeout := TimeoutOf(FindStep(s.definition.steps, payload.stepName, StepChild));
            var e := StartEvent(i, ChildStart(AttemptStarted), payload, s.at, timeout).(successorID := payload.childID);
            NewChildStartAttempt(s) ==
            if LeaseFits(s.lease, WorkChild, i) && DecodeChildDispatch(payload).Some? &&
               payload.stepName in i.children && i.children[payload.stepName].definition == payload.definition &&
               s.definition.Reference() == i.definition && s.lease.work.availableAt <= s.at &&
               e.dueAt <= s.lease.work.deadline && s.lease.claimedAt <= s.at < s.lease.expiresAt && Accepts(registry, i, e)
            then PlanOn(s.transitionID, i, [e], []) else None
  {
    hide Apply, PlanOn, ValidLease, StableName, ValidIdent, ValidReference;
    var i, payload := s.instance, s.lease.work.payload;
    var timeout := TimeoutOf(FindStep(s.definition.steps, payload.stepName, StepChild));
    var e := StartEvent(i, ChildStart(AttemptStarted), payload, s.at, timeout).(successorID := payload.childID);
    if s.definition.Reference() == i.definition {
      ChildGuards(registry, i, e, s.definition);
    }
  }

  /** One way only: this planner also accepts when the definition no longer has the step. */
  lemma ChildStartOutcomeAccepts(registry: Registry, s: ChildOutcomeSpec)
    requires Settled(registry, s.instance)
    ensures var i := s.instance;
            var e := EventOn(i, ChildStart(OutcomePhase(s.outcome.kind)), s.at).(
              successorID := s.childID, stepName := s.stepName, attempt := s.attempt, code := s.outcome.code,
              retryable := s.outcome.retryable);
            s.outcome.data == EMPTY && s.definition.Reference() == i.definition && Accepts(registry, i, e) ==>
              NewChildStartAttemptOutcome(s) == PlanOn(s.transitionID, i, [e], [])
  {
    hide Apply, PlanOn, ValidOutcome;
    if s.outcome.data == EMPTY && !ValidStartOutcome(s.outcome) {
      MalformedStartUnplanned(s);
    }
    var i := s.instance;
    var e := EventOn(i, ChildStart(OutcomePhase(s.outcome.kind)), s.at).(
      successorID := s.childID, stepName := s.stepName, attempt := s.attempt, code := s.outcome.code,
      retryable := s.outcome.retryable);
    if s.definition.Reference() == i.definition {
      ChildGuards(registry, i, e, s.definition);
    }
  }

  lemma ChildStartRetryAccepts(registry: Registry, s: RetrySpec)
    requires Settled(registry, s.instance)
    ensures var i, step := s.instance, FindStep(s.definition.steps, s.stepName, StepChild);
            NewChildStartRetry(s) ==
            if s.stepName in i.children && step.Some? && s.definition.Reference() == i.definition then
              var child := i.children[s.stepName];
              var e := RetryEvent(i, ChildStart(AttemptRetry), s.stepName, child.attempt, step.value.retry, s.at).(
                successorID := child.childID);
              var w := NextWork(s, WorkChild, e,
                                ChildDocument(s.stepName, child.childID, child.definition, Next32(child.attempt),
                                              Hashed(ActivityProcessor, "child-start-key", s.workID)));
              if Accepts(registry, i, e) then PlanOn(s.transitionID, i, [e], [w]) else None
            else None
  {
    hide Apply, PlanOn, RetryDelay;
    var i, step := s.instance, FindStep(s.definition.steps, s.stepName, StepChild);
    if s.stepName in i.children && step.Some? && s.definition.Reference() == i.definition {
      var child := i.children[s.stepName];
      var e := RetryEvent(i, ChildStart(AttemptRetry), s.stepName, child.attempt, step.value.retry, s.at).(
        successorID := child.childID);
      ChildGuards(registry, i, e, s.definition);
    }
  }

  lemma ChildOutcomeAccepts(registry: Registry, s: ChildResultSpec)
    requires Settled(registry, s.instance)
    ensures var i := s.instance;
            var e := EventOn(i, if s.failureCode == "" then ChildCompleted else ChildFailed, s.at).(
              successorID := s.childID, stepName := s.stepName, code := s.failureCode, data := s.result);
            NewChildOutcome(s) ==
            if (s.failureCode == "" || StableName(s.failureCode)) && s.definition.Reference() == i.definition &&
               Accepts(registry, i, e)
            then PlanOn(s.transitionID, i, [e], []) else None
  {
    hide Apply, PlanOn, StableName;
    var i := s.instance;
    var e := EventOn(i, if s.failureCode == "" then ChildCompleted else ChildFailed, s.at).(
      successorID := s.childID, stepName := s.stepName, code := s.failureCode, data := s.result);
    if s.definition.Reference() == i.definition {
      ChildGuards(registry, i, e, s.definition);
    }
  }

  // --- waits --------------------------------------------------------------

  lemma WaitGuards(registry: Registry, i: Instance, e: HistoryEvent, d: Definition)
    requires Settled(registry, i) && d.Reference() == i.definition && IsWaitEvent(e.kind)
    requires e.instanceID == i.id && e.sequence == i.sequence + 1
    ensures Accepts(registry, i, e) ==>
              if e.kind.SignalReceived? then
                FindStep(d.steps, e.stepName, StepSignal).Some? || FindStep(d.steps, e.stepName, StepApproval).Some?
              else FindStep(d.steps, e.stepName, StepTimer).Some?
    ensures e.kind.SignalReceived? && Accepts(registry, i, e) && FindStep(d.steps, e.stepName, StepSignal).Some? ==>
              e.data.Size() <= FindStep(d.steps, e.stepName, StepSignal).value.inputLimit
    ensures e.kind.SignalReceived? && Accepts(registry, i, e) && FindStep(d.steps, e.stepName, StepSignal).None? ==>
              e.data.Size() <= FindStep(d.steps, e.stepName, StepApproval).value.inputLimit
  {
    hide Apply, Terminal;
    PinnedSteps(registry, i, d);
    if e.occurredAt < i.updatedAt {
      RefusesEarlier(registry, i, e);
    } else if e.kind.SignalReceived? {
      AcceptSignal(registry, i, e);
    } else {
      AcceptTimer(registry, i, e);
    }
  }

  /** The cursor and pin of a request that takes no instance are this instance's. */
  predicate At(i: Instance, id: Ident, expected: Uint64, d: Definition) {
    id == i.id && expected == i.sequence && d.Reference() == i.definition
  }

  lemma TimerScheduleAccepts(registry: Registry, i: Instance, s: TimerScheduleSpec)
    requires Settled(registry, i) && At(i, s.instanceID, s.expected, s.definition)
    ensures var step := FindStep(s.definition.steps, s.stepName, StepTimer);
            var e := EventOn(i, TimerScheduled, s.at).(stepName := s.stepName, dueAt := s.at + TimeoutOf(step));
            var w := PendingWork(s.workID, WorkTimer, i.id, e.sequence, e.dueAt, s.deadline, Text(s.stepName),
                                 s.routing.tenantID, s.routing.correlationID);
            Accepts(registry, i, e) ==> NewTimerSchedule(s) == PlanOn(s.transitionID, i, [e], [w])
  {
    hide Apply, Plan;
    var step := FindStep(s.definition.steps, s.stepName, StepTimer);
    var e := EventOn(i, TimerScheduled, s.at).(stepName := s.stepName, dueAt := s.at + TimeoutOf(step));
    var w := PendingWork(s.workID, WorkTimer, i.id, e.sequence, e.dueAt, s.deadline, Text(s.stepName),
                         s.routing.tenantID, s.routing.correlationID);
    WaitGuards(registry, i, e, s.definition);
    if s.at == ZERO_TIME {
      Undated(e);
      Unplanned(Transition(s.transitionID, i.id, i.sequence, i.definition, [e], [w]));
    }
  }

  lemma Undated(e: HistoryEvent)
    requires e.occurredAt == ZERO_TIME
    ensures !ValidEvent(e)
  {
  }

  lemma Unplanned(t: Transition)
    requires t.events != [] && !ValidEvent(t.events[0])
    ensures Plan(t.id, t.instanceID, t.expectedSequence, t.definition, t.events, t.work) == None
  {
  }

  lemma TimerFireAccepts(registry: Registry, i: Instance, s: TimerFireSpec)
    requires Settled(registry, i) && At(i, s.lease.work.instanceID, s.expected, s.definition)
    ensures var e := EventOn(i, TimerFired, s.at).(stepName := s.lease.work.payload.AsName());
            LeaseFits(s.lease, WorkTimer, i) && s.lease.work.availableAt <= s.at < s.lease.work.deadline &&
            Accepts(registry, i, e) ==>
              NewTimerFire(s) == PlanOn(s.transitionID, i, [e], [])
    ensures NewTimerFire(s).Some? ==>
              && LeaseFits(s.lease, WorkTimer, i) && s.lease.work.availableAt <= s.at < s.lease.work.deadline
              && FindStep(s.definition.steps, s.lease.work.payload.AsName(), StepTimer).Some?
  {
    hide Apply, Plan, ValidLease;
    var e := EventOn(i, TimerFired, s.at).(stepName := s.lease.work.payload.AsName());
    WaitGuards(registry, i, e, s.definition);
  }

  lemma SignalAccepts(registry: Registry, i: Instance, s: SignalSpec)
    requires Settled(registry, i) && At(i, s.instanceID, s.expected, s.definition)
    ensures var e := EventOn(i, SignalReceived, s.at).(
              stepName := s.stepName, idempotencyKey := s.signalID, data := s.payload);
            FindStep(s.definition.steps, s.stepName, StepSignal).Some? && Accepts(registry, i, e) ==>
              NewSignalAcceptance(s) == PlanOn(s.signalID, i, [e], [])
  {
    hide Apply, Plan;
    var e := EventOn(i, SignalReceived, s.at).(stepName := s.stepName, idempotencyKey := s.signalID, data := s.payload);
    WaitGuards(registry, i, e, s.definition);
  }

  // --- operators ----------------------------------------------------------

  function AuditOf(c: Command, i: Instance, action: OperatorAction): HistoryEvent {
    EventOn(i, OperatorCommandRecorded, c.at).(
      idempotencyKey := c.commandID, data := AuditDocument(action, c.actor, c.reason))
  }

  /** An audit that is well-formed, next and not early is the command's audit. */
  lemma AuditAccepted(c: Command, i: Instance, action: OperatorAction)
    requires ValidEvent(AuditOf(c, i, action)) && c.at >= i.updatedAt && i.sequence <= MAX_UINT64 - 2
    requires ValidIdent(i.id) && ValidReference(i.definition)
    ensures AuditEvent(c, i, action) == Some(AuditOf(c, i, action))
  {
    hide ValidIdent, StableName, ValidReference;
  }

  /** What a well-formed audited plan says of its parts. */
  lemma PairParts(c: Command, i: Instance, action: OperatorAction, e: HistoryEvent, work: seq<PendingWork>)
    requires 0 < i.sequence < MAX_UINT64 && e.sequence == Next64(Next64(i.sequence))
    requires PlanOn(c.commandID, i, [AuditOf(c, i, action), e], work).Some?
    ensures ValidEvent(AuditOf(c, i, action)) && ValidEvent(e) && i.sequence <= MAX_UINT64 - 2
    ensures ValidIdent(i.id) && ValidIdent(c.commandID) && ValidReference(i.definition)
    ensures ValidTransition(Transition(c.commandID, i.id, i.sequence, i.definition, [AuditOf(c, i, action), e], work))
  {
    hide ValidTransition;
    var t := Transition(c.commandID, i.id, i.sequence, i.definition, [AuditOf(c, i, action), e], work);
    assert ValidEvent(t.events[0]) && ValidEvent(t.events[1]);
    PositiveSequence(e);
    TransitionNames(t);
  }

  lemma TransitionNames(t: Transition)
    requires ValidTransition(t)
    ensures ValidIdent(t.id) && ValidIdent(t.instanceID) && ValidReference(t.definition)
  {
    hide ValidIdent, ValidReference;
  }

  /** The second half of a well-formed pair is a well-formed plan of its own. */
  lemma InnerPlan(t: Transition, later: Instance)
    requires ValidTransition(t) && |t.events| == 2 && t.expectedSequence < MAX_UINT64 - 1
    requires ValidEvent(t.events[1]) && (forall k | 0 <= k < |t.work| :: ValidWork(t.work[k]))
    requires !IsStart(t.events[1].kind) && |t.work| <= 1
    requires t.work != [] ==> t.work[0].sequence == t.events[1].sequence && t.work[0].availableAt >= t.events[1].occurredAt
    requires later.id == t.instanceID && later.sequence == t.expectedSequence + 1 && later.definition == t.definition
    ensures PlanOn(t.id, later, [t.events[1]], t.work).Some?
  {
    hide ValidEvent, ValidWork, ValidIdent, ValidReference, StartsRight;
    var inner := Transition(t.id, later.id, later.sequence, later.definition, [t.events[1]], t.work);
    assert t.events == [t.events[0], t.events[1]] && t.events[..1] == [t.events[0]];
    assert EventBytes(t.events) == EventBytes([t.events[0]]) + t.events[1].data.Size();
    OneEventPlan(inner);
    PlanAccepted(inner);
  }

  lemma LifecycleCommandAccepts(registry: Registry, c: Command, i: Instance, action: OperatorAction)
    requires Settled(registry, i) && i.status != NotStarted
    ensures var audit, e := AuditOf(c, i, action), EventOn(Later(i, c.at), Lifecycle(LifecycleOf(action)), c.at);
            PlanOn(c.commandID, i, [audit, e], []).Some? && ApplyAll(registry, i, [audit, e]).Ok? ==>
              NewOperatorLifecycleCommand(c, i, action) == PlanOn(c.commandID, i, [audit, e], [])
  {
    hide ApplyAll, Apply, PlanOn, AuditEvent, ValidEvent, Terminal, DecodeOperatorAudit;
    var audit, e := AuditOf(c, i, action), EventOn(Later(i, c.at), Lifecycle(LifecycleOf(action)), c.at);
    if PlanOn(c.commandID, i, [audit, e], []).Some? && ApplyAll(registry, i, [audit, e]).Ok? {
      PairParts(c, i, action, e, []);
      PairInTime(registry, i, audit, e);
      AuditAccepted(c, i, action);
      ActionIsReal(audit);
      AuditThenAction(registry, i, c, action, e);
      PendingAction(registry, Pending(i, audit), e);
      AcceptLifecycle(registry, Pending(i, audit), e);
      StandingStatus(i.status);
    }
  }

  lemma StandingStatus(status: InstanceStatus)
    ensures !Terminal(status) <==> status.NotStarted? || status.Running? || status.Paused? || status.Cancelling?
  {
  }

  lemma PendingAction(registry: Registry, i: Instance, e: HistoryEvent)
    requires 0 < i.sequence && !i.pendingOperator.NoAction? && Apply(registry, i, e).Ok?
    ensures CompletesAction(i.pendingOperator, e.kind) && Fits(i, e)
  {
    hide Dispatch, CompletesAction, Next64;
  }

  lemma ActionIsReal(e: HistoryEvent)
    requires ValidEvent(e) && e.kind.OperatorCommandRecorded?
    ensures e.data.AuditDocument? && !e.data.action.NoAction? && DecodeOperatorAudit(e.data) == Some(e.data)
  {
    hide ValidIdent, StableName;
  }

  lemma PairInTime(registry: Registry, i: Instance, e: HistoryEvent, f: HistoryEvent)
    requires i.sequence != 0 && ApplyAll(registry, i, [e, f]).Ok?
    ensures e.occurredAt >= i.updatedAt
  {
    hide Apply, ApplyAll;
    ApplyTwo(registry, i, e, f);
    if e.occurredAt < i.updatedAt {
      RefusesEarlier(registry, i, e);
    }
  }

  /** The instance between an audit and its action, seen by the planner of the action and by replay. */
  lemma ActionAccepted(registry: Registry, i: Instance, c: Command, action: OperatorAction, e: HistoryEvent)
    requires Settled(registry, i) && i.sequence < MAX_UINT64 - 1 && AuditEvent(c, i, action) == Some(AuditOf(c, i, action))
    requires !action.NoAction? && ApplyAll(registry, i, [AuditOf(c, i, action), e]).Ok?
    requires e.kind.Activity? || IsCompensationEvent(e.kind) || e.kind.SignalReceived?
    requires e == EventOn(Later(i, c.at), e.kind, c.at).(stepName := e.stepName, attempt := e.attempt, dueAt := e.dueAt,
               idempotencyKey := e.idempotencyKey, code := e.code, retryable := e.retryable, data := e.data)
    ensures Accepts(registry, Later(i, c.at), e) && Settled(registry, Later(i, c.at))
  {
    hide Apply, ApplyAll, AuditEvent, Terminal, DecodeOperatorAudit, ApplyActivity, ApplyCompensation, ApplySignal;
    var audit := AuditOf(c, i, action);
    AuditThenAction(registry, i, c, action, e);
    PendingAction(registry, Pending(i, audit), e);
    if e.kind.Activity? {
      AcceptActivity(registry, Pending(i, audit), e);
      AcceptActivity(registry, Later(i, c.at), e);
      SameActivities(registry, Pending(i, audit), Later(i, c.at), e);
    } else if e.kind.SignalReceived? {
      AcceptSignal(registry, Pending(i, audit), e);
      AcceptSignal(registry, Later(i, c.at), e);
      SameSignals(registry, Pending(i, audit), Later(i, c.at), e);
    } else {
      AcceptCompensation(registry, Pending(i, audit), e);
      AcceptCompensation(registry, Later(i, c.at), e);
      SameCompensations(registry, Pending(i, audit), Later(i, c.at), e);
    }
  }

  lemma SameActivities(registry: Registry, i: Instance, j: Instance, e: HistoryEvent)
    requires e.kind.Activity? && i.activities == j.activities && i.status == j.status && i.definition == j.definition
    ensures ApplyActivity(registry, i, e.kind.phase, e) == ApplyActivity(registry, j, e.kind.phase, e)
  {
    hide ActivityNext;
  }

  lemma SameSignals(registry: Registry, i: Instance, j: Instance, e: HistoryEvent)
    requires i.signals == j.signals && i.status == j.status && i.definition == j.definition
    ensures ApplySignal(registry, i, e) == ApplySignal(registry, j, e)
  {
    hide SignalNext;
  }

  lemma SameCompensations(registry: Registry, i: Instance, j: Instance, e: HistoryEvent)
    requires IsCompensationEvent(e.kind) && i.activities == j.activities && i.compensations == j.compensations
    requires i.status == j.status && i.definition == j.definition
    ensures ApplyCompensation(registry, i, e) == ApplyCompensation(registry, j, e)
  {
    hide CompensationNext, ResolutionNext;
  }

  /** A well-formed audited pair that replay accepts gives the command its audit and its action a plan. */
  lemma PairPlans(registry: Registry, i: Instance, c: Command, action: OperatorAction, e: HistoryEvent,
                  work: seq<PendingWork>)
    requires Settled(registry, i) && e.sequence == Next64(Next64(i.sequence)) && e.instanceID == i.id && e.occurredAt == c.at
    requires PlanOn(c.commandID, i, [AuditOf(c, i, action), e], work).Some?
    requires ApplyAll(registry, i, [AuditOf(c, i, action), e]).Ok? && !IsStart(e.kind) && |work| <= 1
    requires work != [] ==> work[0].sequence == e.sequence && work[0].availableAt >= e.occurredAt
    ensures AuditEvent(c, i, action) == Some(AuditOf(c, i, action)) && i.sequence < MAX_UINT64 - 1 && !action.NoAction?
    ensures PlanOn(c.commandID, Later(i, c.at), [e], work).Some?
  {
    hide ApplyAll, Apply, AuditEvent, ValidEvent, DecodeOperatorAudit, ValidTransition, ValidWork, Resolves;
    var audit := AuditOf(c, i, action);
    PairParts(c, i, action, e, work);
    PairInTime(registry, i, audit, e);
    AuditAccepted(c, i, action);
    ActionIsReal(audit);
    InnerPlan(Transition(c.commandID, i.id, i.sequence, i.definition, [audit, e], work), Later(i, c.at));
  }

  lemma OperatorRetryAccepts(registry: Registry, c: Command, s: RetrySpec)
    requires Settled(registry, s.instance) && s.stepName in s.instance.activities && ValidIdent(s.key)
    requires s.definition.Reference() == s.instance.definition
    requires FindStep(s.definition.steps, s.stepName, StepActivity).Some?
    ensures var i, policy := s.instance, FindStep(s.definition.steps, s.stepName, StepActivity).value.retry;
            var audit, attempt := AuditOf(c, i, OperatorRetryActivity), i.activities[s.stepName].attempt;
            var e := RetryEvent(Later(i, c.at), Activity(AttemptRetry), s.stepName, attempt, policy, c.at);
            var w := NextWork(s, WorkActivity, e, DispatchDocument(s.stepName, Next32(attempt), s.key));
            PlanOn(c.commandID, i, [audit, e], [w]).Some? && ApplyAll(registry, i, [audit, e]).Ok? ==>
              NewOperatorActivityRetry(c, s) == PlanOn(c.commandID, i, [audit, e], [w])
  {
    hide ApplyAll, Apply, PlanOn, AuditEvent, RetryDelay, NewActivityRetry, AuditOf, Resolves;
    var i, policy := s.instance, FindStep(s.definition.steps, s.stepName, StepActivity).value.retry;
    var audit, attempt := AuditOf(c, i, OperatorRetryActivity), i.activities[s.stepName].attempt;
    var e := RetryEvent(Later(i, c.at), Activity(AttemptRetry), s.stepName, attempt, policy, c.at);
    var w := NextWork(s, WorkActivity, e, DispatchDocument(s.stepName, Next32(attempt), s.key));
    if PlanOn(c.commandID, i, [audit, e], [w]).Some? && ApplyAll(registry, i, [audit, e]).Ok? {
      RetryWorkLater(c, i, audit, e, w);
      PairPlans(registry, i, c, OperatorRetryActivity, e, [w]);
      ActionAccepted(registry, i, c, OperatorRetryActivity, e);
      var inner := s.(transitionID := c.commandID, instance := Later(i, c.at), at := c.at);
      ActivityRetryAccepts(registry, inner);
      RunningOnly(registry, Later(i, c.at), e, s.definition);
      assert [audit] + [e] == [audit, e];
    }
  }

  lemma RetryWorkLater(c: Command, i: Instance, audit: HistoryEvent, e: HistoryEvent, w: PendingWork)
    requires PlanOn(c.commandID, i, [audit, e], [w]).Some? && w.availableAt == e.dueAt && e.kind == Activity(AttemptRetry)
    ensures w.availableAt >= e.occurredAt
  {
    hide ValidTransition;
    var t := Transition(c.commandID, i.id, i.sequence, i.definition, [audit, e], [w]);
    assert ValidEvent(t.events[1]);
  }

  lemma RunningOnly(registry: Registry, i: Instance, e: HistoryEvent, d: Definition)
    requires Settled(registry, i) && d.Reference() == i.definition && e.kind == Activity(AttemptRetry)
    requires e.instanceID == i.id && e.sequence == i.sequence + 1 && Accepts(registry, i, e)
    ensures AsRunning(i) == i
  {
    hide Apply, Terminal, RetryDelay;
    ActivityGuards(registry, i, e, d);
  }

  lemma OperatorCompensationAccepts(registry: Registry, c: Command, s: ScheduleSpec)
    requires Settled(registry, s.instance) && s.attempt == 1 && ValidIdent(s.key)
    requires s.definition.Reference() == s.instance.definition
    requires FindStep(s.definition.steps, s.stepName, StepActivity).Some? ==>
               s.input.Size() <= FindStep(s.definition.steps, s.stepName, StepActivity).value.inputLimit
    ensures var i, audit := s.instance, AuditOf(c, s.instance, OperatorCompensate);
            var e := EventOn(Later(i, c.at), Compensation(AttemptAdmitted), c.at).(stepName := s.stepName, data := s.input);
            var w := PendingWork(s.workID, WorkCompensation, i.id, e.sequence, c.at, s.deadline,
                                 DispatchDocument(s.stepName, 1, s.key), s.routing.tenantID, s.routing.correlationID);
            PlanOn(c.commandID, i, [audit, e], [w]).Some? && ApplyAll(registry, i, [audit, e]).Ok? ==>
              NewOperatorCompensation(c, s) == PlanOn(c.commandID, i, [audit, e], [w])
  {
    hide ApplyAll, Apply, PlanOn, AuditEvent, NewCompensationSchedule, AuditOf, Resolves;
    var i, audit := s.instance, AuditOf(c, s.instance, OperatorCompensate);
    var e := EventOn(Later(i, c.at), Compensation(AttemptAdmitted), c.at).(stepName := s.stepName, data := s.input);
    var w := PendingWork(s.workID, WorkCompensation, i.id, e.sequence, c.at, s.deadline,
                         DispatchDocument(s.stepName, 1, s.key), s.routing.tenantID, s.routing.correlationID);
    if PlanOn(c.commandID, i, [audit, e], [w]).Some? && ApplyAll(registry, i, [audit, e]).Ok? {
      PairPlans(registry, i, c, OperatorCompensate, e, [w]);
      ActionAccepted(registry, i, c, OperatorCompensate, e);
      var inner := s.(transitionID := c.commandID, instance := Later(i, c.at), at := c.at);
      CompensationScheduleAccepts(registry, inner);
      assert [audit] + [e] == [audit, e];
    }
  }

  lemma ResolutionAccepts(registry: Registry, c: Command, s: ResolutionSpec)
    requires Settled(registry, s.instance) && s.definition.Reference() == s.instance.definition
    ensures var i, audit := s.instance, AuditOf(c, s.instance, OperatorResolveCompensation);
            var e := EventOn(Later(i, c.at), CompensationManuallyResolved, c.at).(
              stepName := s.stepName, code := s.code, data := s.evidence);
            PlanOn(c.commandID, i, [audit, e], []).Some? && ApplyAll(registry, i, [audit, e]).Ok? ==>
              NewOperatorCompensationResolution(c, s) == PlanOn(c.commandID, i, [audit, e], [])
  {
    hide ApplyAll, Apply, PlanOn, AuditEvent, AuditOf, Resolves, ValidEvent, StableName;
    var i, audit := s.instance, AuditOf(c, s.instance, OperatorResolveCompensation);
    var e := EventOn(Later(i, c.at), CompensationManuallyResolved, c.at).(
      stepName := s.stepName, code := s.code, data := s.evidence);
    if PlanOn(c.commandID, i, [audit, e], []).Some? && ApplyAll(registry, i, [audit, e]).Ok? {
      PairParts(c, i, OperatorResolveCompensation, e, []);
      PairPlans(registry, i, c, OperatorResolveCompensation, e, []);
      ActionAccepted(registry, i, c, OperatorResolveCompensation, e);
      ResolutionGuards(registry, Later(i, c.at), e, s.definition);
      assert [audit] + [e] == [audit, e];
    }
  }

  lemma ResolutionGuards(registry: Registry, i: Instance, e: HistoryEvent, d: Definition)
    requires Settled(registry, i) && d.Reference() == i.definition && e.kind.CompensationManuallyResolved? && ValidEvent(e)
    requires e.instanceID == i.id && e.sequence == i.sequence + 1 && Accepts(registry, i, e)
    ensures var policy := CompensationPolicy(d.steps, e.stepName);
            && policy.Some? && StableName(e.code) && e.data.Size() <= policy.value.resultLimit
            && e.stepName in i.compensations
            && (i.compensations[e.stepName].status.CompensationFailed? || i.compensations[e.stepName].status.CompensationUnknown?)
  {
    hide Apply, Terminal, StableName, ValidIdent;
    PinnedSteps(registry, i, d);
    if e.occurredAt >= i.updatedAt {
      AcceptCompensation(registry, i, e);
    } else {
      RefusesEarlier(registry, i, e);
    }
  }

  lemma ApprovalAccepts(registry: Registry, c: Command, s: ApprovalSpec)
    requires Settled(registry, s.instance) && s.definition.Reference() == s.instance.definition
    requires FindStep(s.definition.steps, s.stepName, StepApproval).Some?
    requires FindStep(s.definition.steps, s.stepName, StepSignal).None?
    ensures var i, audit := s.instance, AuditOf(c, s.instance, OperatorApprove);
            var e := EventOn(Later(i, c.at), SignalReceived, c.at).(
              stepName := s.stepName, idempotencyKey := c.commandID, data := s.payload);
            PlanOn(c.commandID, i, [audit, e], []).Some? && ApplyAll(registry, i, [audit, e]).Ok? ==>
              NewOperatorApproval(c, s) == PlanOn(c.commandID, i, [audit, e], [])
  {
    hide ApplyAll, Apply, PlanOn, AuditEvent, AuditOf, Resolves;
    var i, audit := s.instance, AuditOf(c, s.instance, OperatorApprove);
    var e := EventOn(Later(i, c.at), SignalReceived, c.at).(
      stepName := s.stepName, idempotencyKey := c.commandID, data := s.payload);
    if PlanOn(c.commandID, i, [audit, e], []).Some? && ApplyAll(registry, i, [audit, e]).Ok? {
      PairPlans(registry, i, c, OperatorApprove, e, []);
      ActionAccepted(registry, i, c, OperatorApprove, e);
      WaitGuards(registry, Later(i, c.at), e, s.definition);
      assert [audit] + [e] == [audit, e];
    }
  }
}
