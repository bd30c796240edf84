/**
 * The hand-off from a planner to a processor. A plan's work item, once its
 * events are replayed, starts exactly the attempt the plan admitted: any valid
 * lease on it lets the start planner succeed, on that instance or any later one
 * that has not moved the step, at every time the lease and the work allow.
 */
module HandOff {
  import opened Basics
  import opened Definitions
  import opened Backoff
  import opened Events
  import opened Replay
  import opened Transitions
  import opened Planners
  import opened Acceptance
  import opened PlannerSoundness
  import opened PlannerCompleteness
  import opened OperatorSoundness
  import O = Orchestration
  import OrchestrationRuns
  import OrchestrationTheorems

  // --- what a processor needs ---------------------------------------------

  function WorkKindOf(kind: ProcessorKind): WorkKind {
    match kind
    case ActivityProcessor => WorkActivity
    case CompensationProcessor => WorkCompensation
    case ChildProcessor => WorkChild
  }

  function StartPlan(kind: ProcessorKind, s: StartSpec): Option<Transition> {
    match kind
    case ActivityProcessor => NewActivityAttemptStart(s)
    case CompensationProcessor => NewCompensationAttemptStart(s)
    case ChildProcessor => NewChildStartAttempt(s)
  }

  /** Timeout and retry policy of a step's attempts. */
  datatype Terms = Terms(timeout: Duration, retry: RetryPolicy)

  function TermsOf(kind: ProcessorKind, d: Definition, name: string): Option<Terms> {
    match kind
    case ActivityProcessor =>
      var step := FindStep(d.steps, name, StepActivity);
      if step.None? then None else Some(Terms(step.value.timeout, step.value.retry))
    case CompensationProcessor =>
      var policy := CompensationPolicy(d.steps, name);
      if policy.None? then None else Some(Terms(policy.value.timeout, policy.value.retry))
    case ChildProcessor =>
      var step := FindStep(d.steps, name, StepChild);
      if step.None? then None else Some(Terms(step.value.timeout, step.value.retry))
  }

  predicate OpenFor(kind: ProcessorKind, status: InstanceStatus) {
    status.Running? || (kind.CompensationProcessor? && status.Cancelling?)
  }

  /** Attempt `n` is the next one of the step, and may start at `at`. */
  predicate Admits(kind: ProcessorKind, i: Instance, name: string, n: nat, at: Time) {
    match kind
    case ActivityProcessor =>
      && name in i.activities && n == i.activities[name].attempt + 1
      && (i.activities[name].status.ActivityReady? ||
          (i.activities[name].status.ActivityRetryWaiting? && i.activities[name].dueAt <= at))
    case CompensationProcessor =>
      && name in i.compensations && n == i.compensations[name].attempt + 1
      && (i.compensations[name].status.CompensationReady? ||
          (i.compensations[name].status.CompensationRetryWaiting? && i.compensations[name].dueAt <= at))
    case ChildProcessor =>
      && name in i.children && n == i.children[name].attempt + 1
      && (i.children[name].status.ChildIsScheduled? ||
          (i.children[name].status.ChildRetryWaiting? && i.children[name].dueAt <= at))
  }

  /** The payload asks for this attempt of this step, and of this child. */
  predicate AsksFor(kind: ProcessorKind, payload: Payload, i: Instance, name: string, n: nat) {
    && !payload.Text? && payload.stepName == name && payload.attempt == n && ValidIdent(payload.key)
    && if kind.ChildProcessor? then
         && payload.ChildDocument? && name in i.children
         && payload.childID == i.children[name].childID && payload.definition == i.children[name].definition
       else payload.DispatchDocument?
  }

  /** The work item is for attempt `n` of a step that the instance admits from the item's own time on. */
  predicate Hands(kind: ProcessorKind, d: Definition, w: PendingWork, i: Instance, name: string, n: nat) {
    && w.kind == WorkKindOf(kind) && w.instanceID == i.id && w.sequence <= i.sequence
    && AsksFor(kind, w.payload, i, name, n) && Admits(kind, i, name, n, w.availableAt)
    && TermsOf(kind, d, name).Some? && n <= TermsOf(kind, d, name).value.retry.maxAttempts
  }

  predicate SameStep(kind: ProcessorKind, i: Instance, j: Instance, name: string) {
    match kind
    case ActivityProcessor => Lookup(i.activities, name) == Lookup(j.activities, name)
    case CompensationProcessor => Lookup(i.compensations, name) == Lookup(j.compensations, name)
    case ChildProcessor => Lookup(i.children, name) == Lookup(j.children, name)
  }

  predicate Decodes(kind: ProcessorKind, payload: Payload) {
    if kind.ChildProcessor? then DecodeChildDispatch(payload).Some? else DecodeDispatch(payload).Some?
  }

  /** What remains to be right when the attempt is started: lease, definition, time, and the instance still open. */
  predicate Startable(registry: Registry, kind: ProcessorKind, w: PendingWork, i: Instance, s: StartSpec) {
    && Settled(registry, s.instance) && s.definition.Reference() == s.instance.definition
    && s.instance.id == i.id && s.instance.sequence >= i.sequence && OpenFor(kind, s.instance.status)
    && s.lease.work == w && ValidLease(s.lease) && Decodes(kind, w.payload) && ValidIdent(s.transitionID)
    && s.at != ZERO_TIME && s.at >= s.instance.updatedAt
  }

  // --- starting what is handed over ---------------------------------------

  /** A start event is well-formed. */
  lemma StartIsValid(i: Instance, kind: EventKind, payload: Payload, at: Time, timeout: Duration)
    requires kind == Activity(AttemptStarted) || kind == Compensation(AttemptStarted)
    requires !payload.Text? && StableName(payload.stepName) && payload.attempt > 0 && ValidIdent(payload.key)
    requires ValidIdent(i.id) && i.sequence < MAX_UINT64 && at != ZERO_TIME && timeout > 0
    ensures ValidEvent(StartEvent(i, kind, payload, at, timeout))
  {
    hide ValidIdent, StableName;
  }

  lemma ChildStartIsValid(i: Instance, payload: Payload, at: Time, timeout: Duration)
    requires payload.ChildDocument? && StableName(payload.stepName) && payload.attempt > 0 && ValidIdent(payload.key)
    requires ValidIdent(payload.childID)
    requires ValidIdent(i.id) && i.sequence < MAX_UINT64 && at != ZERO_TIME && timeout > 0
    ensures ValidEvent(StartEvent(i, ChildStart(AttemptStarted), payload, at, timeout).(successorID := payload.childID))
  {
    hide ValidIdent, StableName;
  }

  lemma PinIsValid(registry: Registry, i: Instance, d: Definition)
    requires ValidRegistry(registry) && Settled(registry, i) && d.Reference() == i.definition
    ensures ValidReference(i.definition) && ValidDefinition(d)
  {
    hide ValidStep, BranchesResolve, ValidControlFlow, StableName;
    PinnedSteps(registry, i, d);
  }

  lemma TermsAreValid(kind: ProcessorKind, d: Definition, name: string)
    requires ValidDefinition(d) && TermsOf(kind, d, name).Some?
    ensures TermsOf(kind, d, name).value.timeout > 0 && ValidRetry(TermsOf(kind, d, name).value.retry) && StableName(name)
  {
    hide StableName, BranchesResolve, ValidControlFlow, WellNamedBranches, ValidReference;
    var wanted := if kind.ChildProcessor? then StepChild else StepActivity;
    var step := FindStep(d.steps, name, wanted).value;
    assert step in d.steps && ValidStep(step);
  }

  lemma StartPlanned(registry: Registry, s: StartSpec, e: HistoryEvent)
    requires ValidRegistry(registry) && Settled(registry, s.instance) && s.definition.Reference() == s.instance.definition
    requires ValidIdent(s.transitionID) && ValidLease(s.lease) && s.lease.work.instanceID == s.instance.id
    requires ValidEvent(e) && !IsStart(e.kind) && e.data == EMPTY
    requires e.sequence == s.instance.sequence + 1 && e.instanceID == s.instance.id
    ensures PlanOn(s.transitionID, s.instance, [e], []).Some?
  {
    hide ValidEvent, ValidRegistry, ValidIdent, OptionalMetadata, Plan, ValidReference, ValidDefinition;
    PinIsValid(registry, s.instance, s.definition);
    PlanAccepted(Transition(s.transitionID, s.instance.id, s.instance.sequence, s.instance.definition, [e], []));
  }

  lemma DecodedName(kind: ProcessorKind, payload: Payload)
    requires Decodes(kind, payload)
    ensures !payload.Text? && StableName(payload.stepName) && payload.attempt > 0 && ValidIdent(payload.key)
    ensures kind.ChildProcessor? ==> payload.ChildDocument? && ValidIdent(payload.childID)
    ensures !kind.ChildProcessor? ==> payload.DispatchDocument?
  {
    hide StableName, ValidIdent, ValidReference;
  }

  lemma LeasedInstance(l: WorkLease)
    requires ValidLease(l)
    ensures ValidIdent(l.work.instanceID)
  {
    hide ValidIdent, OptionalMetadata;
  }

  /**
   * Handed-over work starts: with a valid lease on it, on any later open
   * instance that has not moved the step, at every time the lease and the work
   * leave room for the attempt.
   */
  lemma HandedWorkStarts(registry: Registry, kind: ProcessorKind, w: PendingWork, i: Instance, s: StartSpec,
                         name: string, n: nat)
    requires ValidRegistry(registry) && Hands(kind, s.definition, w, i, name, n)
    requires Startable(registry, kind, w, i, s) && SameStep(kind, i, s.instance, name)
    requires w.availableAt <= s.at && s.at + TermsOf(kind, s.definition, name).value.timeout <= w.deadline
    requires s.lease.claimedAt <= s.at < s.lease.expiresAt
    ensures StartPlan(kind, s).Some?
  {
    hide ValidRegistry, ValidLease, ValidEvent, ValidIdent, StableName, ValidDefinition, PlanOn, NewActivityAttemptStart,
         NewCompensationAttemptStart, NewChildStartAttempt, Resolves, DecodeDispatch, DecodeChildDispatch, ValidReference;
    PinIsValid(registry, s.instance, s.definition);
    TermsAreValid(kind, s.definition, name);
    LeasedInstance(s.lease);
    DecodedName(kind, w.payload);
    var timeout := TermsOf(kind, s.definition, name).value.timeout;
    match kind {
      case ActivityProcessor => ActivityWorkStarts(registry, w, i, s, name, n);
      case CompensationProcessor => CompensationWorkStarts(registry, w, i, s, name, n);
      case ChildProcessor => ChildWorkStarts(registry, w, i, s, name, n);
    }
  }

  lemma ActivityWorkStarts(registry: Registry, w: PendingWork, i: Instance, s: StartSpec, name: string, n: nat)
    requires ValidRegistry(registry) && Hands(ActivityProcessor, s.definition, w, i, name, n)
    requires Startable(registry, ActivityProcessor, w, i, s) && SameStep(ActivityProcessor, i, s.instance, name)
    requires InsideLease(s.lease, s.at, s.at + TermsOf(ActivityProcessor, s.definition, name).value.timeout)
    requires TermsOf(ActivityProcessor, s.definition, name).value.timeout > 0 && ValidIdent(s.instance.id)
    requires StableName(name) && n > 0
    ensures NewActivityAttemptStart(s).Some?
  {
    hide ValidRegistry, ValidLease, ValidEvent, ValidIdent, StableName, PlanOn, NewActivityAttemptStart, Resolves, Apply,
         DecodeDispatch;
    var timeout := TermsOf(ActivityProcessor, s.definition, name).value.timeout;
    var e := StartEvent(s.instance, Activity(AttemptStarted), w.payload, s.at, timeout);
    StartIsValid(s.instance, Activity(AttemptStarted), w.payload, s.at, timeout);
    StartPlanned(registry, s, e);
    RunningIsLive(s.instance.status);
    ActivityGuards(registry, s.instance, e, s.definition);
    ActivityStartAccepts(registry, s);
  }

  lemma CompensationWorkStarts(registry: Registry, w: PendingWork, i: Instance, s: StartSpec, name: string, n: nat)
    requires ValidRegistry(registry) && Hands(CompensationProcessor, s.definition, w, i, name, n)
    requires Startable(registry, CompensationProcessor, w, i, s) && SameStep(CompensationProcessor, i, s.instance, name)
    requires InsideLease(s.lease, s.at, s.at + TermsOf(CompensationProcessor, s.definition, name).value.timeout)
    requires TermsOf(CompensationProcessor, s.definition, name).value.timeout > 0 && ValidIdent(s.instance.id)
    requires StableName(name) && n > 0
    ensures NewCompensationAttemptStart(s).Some?
  {
    hide ValidRegistry, ValidLease, ValidEvent, ValidIdent, StableName, PlanOn, NewCompensationAttemptStart, Resolves, Apply,
         DecodeDispatch;
    var timeout := TermsOf(CompensationProcessor, s.definition, name).value.timeout;
    var e := StartEvent(s.instance, Compensation(AttemptStarted), w.payload, s.at, timeout);
    StartIsValid(s.instance, Compensation(AttemptStarted), w.payload, s.at, timeout);
    StartPlanned(registry, s, e);
    CompensableIsLive(s.instance.status);
    CompensationGuards(registry, s.instance, e, s.definition);
    CompensationStartAccepts(registry, s);
  }

  lemma ChildWorkStarts(registry: Registry, w: PendingWork, i: Instance, s: StartSpec, name: string, n: nat)
    requires ValidRegistry(registry) && Hands(ChildProcessor, s.definition, w, i, name, n)
    requires Startable(registry, ChildProcessor, w, i, s) && SameStep(ChildProcessor, i, s.instance, name)
    requires InsideLease(s.lease, s.at, s.at + TermsOf(ChildProcessor, s.definition, name).value.timeout)
    requires TermsOf(ChildProcessor, s.definition, name).value.timeout > 0 && ValidIdent(s.instance.id)
    requires StableName(name) && n > 0 && ValidIdent(w.payload.childID)
    ensures NewChildStartAttempt(s).Some?
  {
    hide ValidRegistry, ValidLease, ValidEvent, ValidIdent, StableName, PlanOn, NewChildStartAttempt, Resolves, Apply,
         DecodeChildDispatch;
    var timeout := TermsOf(ChildProcessor, s.definition, name).value.timeout;
    var e := StartEvent(s.instance, ChildStart(AttemptStarted), w.payload, s.at, timeout).(successorID := w.payload.childID);
    ChildStartIsValid(s.instance, w.payload, s.at, timeout);
    StartPlanned(registry, s, e);
    ChildGuards(registry, s.instance, e, s.definition);
    ChildStartAccepts(registry, s);
  }

  /** A planned start lies inside its claim window, and its attempt inside the work's own times. */
  lemma StartWithinBounds(kind: ProcessorKind, s: StartSpec)
    requires StartPlan(kind, s).Some? && Decodes(kind, s.lease.work.payload)
    ensures s.lease.claimedAt <= s.at < s.lease.expiresAt && s.lease.work.availableAt <= s.at && s.at >= s.instance.updatedAt
    ensures !s.lease.work.payload.Text? && TermsOf(kind, s.definition, s.lease.work.payload.stepName).Some?
    ensures var t := StartPlan(kind, s).value;
            && |t.events| == 1 && t.work == [] && t.id == s.transitionID && t.events[0].occurredAt == s.at
            && t.events[0].dueAt == s.at + TermsOf(kind, s.definition, s.lease.work.payload.stepName).value.timeout
            && t.events[0].dueAt <= s.lease.work.deadline
  {
    hide ValidTransition, ValidEvent, ValidLease, ValidIdent, StableName, ValidReference;
  }

  // --- what each planner hands over ---------------------------------------

  /** A plan's one work item, as requested, hands attempt `n` over from `from` on. */
  predicate HandsOver(kind: ProcessorKind, d: Definition, t: Transition, i: Instance, name: string, n: nat, key: Ident,
                      id: Ident, from: Time, deadline: Time, routing: Routing)
  {
    && |t.work| == 1 && Hands(kind, d, t.work[0], i, name, n)
    && t.work[0].id == id && t.work[0].availableAt == from && t.work[0].deadline == deadline
    && t.work[0].payload.key == key && Routing(t.work[0].tenantID, t.work[0].correlationID) == routing
  }

  lemma FirstAttemptAllowed(registry: Registry, i: Instance, d: Definition, kind: ProcessorKind, name: string)
    requires ValidRegistry(registry) && Settled(registry, i) && d.Reference() == i.definition
    requires TermsOf(kind, d, name).Some?
    ensures 1 <= TermsOf(kind, d, name).value.retry.maxAttempts
  {
    hide ValidRegistry, ValidDefinition, TermsOf;
    PinIsValid(registry, i, d);
    TermsAreValid(kind, d, name);
  }

  lemma ActivityScheduleHands(registry: Registry, s: ScheduleSpec)
    requires ValidRegistry(registry) && Settled(registry, s.instance) && NewActivitySchedule(s).Some?
    ensures Replayed(registry, s.instance, NewActivitySchedule(s)).Ok?
    ensures HandsOver(ActivityProcessor, s.definition, NewActivitySchedule(s).value,
                      Replayed(registry, s.instance, NewActivitySchedule(s)).value, s.stepName, 1, s.key, s.workID, s.at,
                      s.deadline, s.routing)
  {
    hide ApplyAll, ValidRegistry, ValidTransition, ValidEvent, ValidWork;
    ActivityScheduleSound(registry, s);
    FirstAttemptAllowed(registry, s.instance, s.definition, ActivityProcessor, s.stepName);
  }

  lemma ActivityRetryHands(registry: Registry, s: RetrySpec)
    requires Settled(registry, s.instance) && s.instance.status.Running? && NewActivityRetry(s).Some?
    ensures Replayed(registry, s.instance, NewActivityRetry(s)).Ok? && s.stepName in s.instance.activities
    ensures FindStep(s.definition.steps, s.stepName, StepActivity).Some?
    ensures var attempt := s.instance.activities[s.stepName].attempt;
            var policy := FindStep(s.definition.steps, s.stepName, StepActivity).value.retry;
            HandsOver(ActivityProcessor, s.definition, NewActivityRetry(s).value,
                      Replayed(registry, s.instance, NewActivityRetry(s)).value, s.stepName, attempt + 1, s.key, s.workID,
                      s.at + RetryDelay(policy, attempt), s.deadline, s.routing)
  {
    hide ApplyAll, ValidTransition, ValidEvent, ValidWork, RetryDelay;
    ActivityRetryExactly(registry, s);
  }

  lemma CompensationScheduleHands(registry: Registry, s: ScheduleSpec)
    requires ValidRegistry(registry) && Settled(registry, s.instance) && NewCompensationSchedule(s).Some?
    ensures Replayed(registry, s.instance, NewCompensationSchedule(s)).Ok?
    ensures HandsOver(CompensationProcessor, s.definition, NewCompensationSchedule(s).value,
                      Replayed(registry, s.instance, NewCompensationSchedule(s)).value, s.stepName, 1, s.key, s.workID,
                      s.at, s.deadline, s.routing)
  {
    hide ApplyAll, ValidRegistry, ValidTransition, ValidEvent, ValidWork;
    CompensationScheduleSound(registry, s);
    FirstAttemptAllowed(registry, s.instance, s.definition, CompensationProcessor, s.stepName);
  }

  lemma CompensationRetryHands(registry: Registry, s: RetrySpec)
    requires Settled(registry, s.instance) && NewCompensationRetry(s).Some?
    ensures Replayed(registry, s.instance, NewCompensationRetry(s)).Ok? && s.stepName in s.instance.compensations
    ensures CompensationPolicy(s.definition.steps, s.stepName).Some?
    ensures var attempt := s.instance.compensations[s.stepName].attempt;
            var policy := CompensationPolicy(s.definition.steps, s.stepName).value.retry;
            HandsOver(CompensationProcessor, s.definition, NewCompensationRetry(s).value,
                      Replayed(registry, s.instance, NewCompensationRetry(s)).value, s.stepName, attempt + 1, s.key,
                      s.workID, s.at + RetryDelay(policy, attempt), s.deadline, s.routing)
  {
    hide ApplyAll, ValidTransition, ValidEvent, ValidWork, RetryDelay;
    CompensationRetrySound(registry, s);
  }

  lemma ChildScheduleHands(registry: Registry, s: ChildScheduleSpec)
    requires ValidRegistry(registry) && Settled(registry, s.instance) && NewChildSchedule(s).Some?
    ensures Replayed(registry, s.instance, NewChildSchedule(s)).Ok?
    ensures HandsOver(ChildProcessor, s.definition, NewChildSchedule(s).value,
                      Replayed(registry, s.instance, NewChildSchedule(s)).value, s.stepName, 1, s.childID, s.workID, s.at,
                      s.deadline, s.routing)
  {
    hide ApplyAll, ValidRegistry, ValidTransition, ValidEvent, ValidWork;
    ChildScheduleSound(registry, s);
    FirstAttemptAllowed(registry, s.instance, s.definition, ChildProcessor, s.stepName);
  }

  lemma ChildRetryHands(registry: Registry, s: RetrySpec)
    requires Settled(registry, s.instance) && NewChildStartRetry(s).Some?
    ensures Replayed(registry, s.instance, NewChildStartRetry(s)).Ok? && s.stepName in s.instance.children
    ensures FindStep(s.definition.steps, s.stepName, StepChild).Some?
    ensures var attempt := s.instance.children[s.stepName].attempt;
            var policy := FindStep(s.definition.steps, s.stepName, StepChild).value.retry;
            HandsOver(ChildProcessor, s.definition, NewChildStartRetry(s).value,
                      Replayed(registry, s.instance, NewChildStartRetry(s)).value, s.stepName, attempt + 1,
                      Hashed(ActivityProcessor, "child-start-key", s.workID), s.workID,
                      s.at + RetryDelay(policy, attempt), s.deadline, s.routing)
  {
    hide ApplyAll, ValidTransition, ValidEvent, ValidWork, RetryDelay;
    ChildStartRetrySound(registry, s);
  }

  lemma OperatorRetryHands(registry: Registry, c: Command, s: RetrySpec)
    requires Settled(registry, s.instance) && s.instance.status.Running? && NewOperatorActivityRetry(c, s).Some?
    ensures Replayed(registry, s.instance, NewOperatorActivityRetry(c, s)).Ok? && s.stepName in s.instance.activities
    ensures FindStep(s.definition.steps, s.stepName, StepActivity).Some?
    ensures var attempt := s.instance.activities[s.stepName].attempt;
            var policy := FindStep(s.definition.steps, s.stepName, StepActivity).value.retry;
            HandsOver(ActivityProcessor, s.definition, NewOperatorActivityRetry(c, s).value,
                      Replayed(registry, s.instance, NewOperatorActivityRetry(c, s)).value, s.stepName, attempt + 1, s.key,
                      s.workID, c.at + RetryDelay(policy, attempt), s.deadline, s.routing)
  {
    hide ApplyAll, ValidTransition, ValidEvent, ValidWork, RetryDelay, AuditEvent;
    OperatorRetryExactly(registry, c, s);
  }

  lemma OperatorCompensationHands(registry: Registry, c: Command, s: ScheduleSpec)
    requires ValidRegistry(registry) && Settled(registry, s.instance) && NewOperatorCompensation(c, s).Some?
    ensures Replayed(registry, s.instance, NewOperatorCompensation(c, s)).Ok?
    ensures HandsOver(CompensationProcessor, s.definition, NewOperatorCompensation(c, s).value,
                      Replayed(registry, s.instance, NewOperatorCompensation(c, s)).value, s.stepName, 1, s.key, s.workID,
                      c.at, s.deadline, s.routing)
  {
    hide ApplyAll, ValidRegistry, ValidTransition, ValidEvent, ValidWork, AuditEvent;
    OperatorCompensationSound(registry, c, s);
    FirstAttemptAllowed(registry, s.instance, s.definition, CompensationProcessor, s.stepName);
  }

  /** Every branch of a parallel plan has its own work item, which hands over that branch's first attempt. */
  lemma ParallelHands(registry: Registry, s: O.DecisionSpec, step: StepSpec, t: Transition, k: nat)
    requires ValidRegistry(registry) && Settled(registry, s.instance) && O.Decidable(s) && s.at >= s.instance.updatedAt
    requires step.kind.StepParallel? && OrchestrationRuns.StepPlan(s, step, t) && Distinct(step.branches)
    requires k < |step.branches|
    ensures ApplyAll(registry, s.instance, t.events).Ok? && |t.work| == |step.branches|
    ensures var w, name := t.work[k], step.branches[k];
            && Hands(ActivityProcessor, s.definition, w, ApplyAll(registry, s.instance, t.events).value, name, 1)
            && w.availableAt == s.at && w.deadline == s.deadline
            && Routing(w.tenantID, w.correlationID) == s.routing
            && exists b | b in s.branches :: b.stepName == name && w.id == b.workID && w.payload.key == b.key
  {
    hide ApplyAll, ValidRegistry, Settled, O.BranchReady, O.BranchWork, OrchestrationRuns.StepPlan, O.Decidable,
         OrchestrationRuns.AdmittedUpTo, Hands, ValidTransition;
    OrchestrationRuns.ParallelPlanExactly(registry, s, step, t);
    ParallelWork(s, step, t);
    BranchHands(registry, s, step, t, k, ApplyAll(registry, s.instance, t.events).value);
  }

  lemma ParallelWork(s: O.DecisionSpec, step: StepSpec, t: Transition)
    requires step.kind.StepParallel? && OrchestrationRuns.StepPlan(s, step, t)
    ensures (forall b | b in step.branches :: O.BranchReady(s, b)) && t.work == O.BranchWorks(s, step.branches)
    ensures ContiguousFrom(t.events, s.instance.id, s.instance.sequence + 1) && |t.events| == |step.branches|
    ensures t.events == O.BranchEvents(s, step.branches)
  {
    hide O.BranchReady, O.BranchEvent, O.BranchWork, O.DistinctBranches, O.BranchEvents, O.BranchWorks;
  }

  lemma BranchAdmitted(s: O.DecisionSpec, branches: seq<string>, k: nat, j: Instance)
    requires (forall b | b in branches :: O.BranchReady(s, b)) && k < |branches|
    requires OrchestrationRuns.AdmittedUpTo(s, branches, |branches|, j)
    ensures branches[k] in j.activities && j.activities[branches[k]].status.ActivityReady?
    ensures j.activities[branches[k]].attempt == 0 && j.id == s.instance.id
    ensures j.sequence == s.instance.sequence + |branches|
  {
    hide O.BranchReady;
  }

  lemma BranchHands(registry: Registry, s: O.DecisionSpec, step: StepSpec, t: Transition, k: nat, j: Instance)
    requires ValidRegistry(registry) && Settled(registry, s.instance) && O.Decidable(s) && k < |step.branches|
    requires (forall b | b in step.branches :: O.BranchReady(s, b)) && t.work == O.BranchWorks(s, step.branches)
    requires t.events == O.BranchEvents(s, step.branches)
    requires ContiguousFrom(t.events, s.instance.id, s.instance.sequence + 1)
    requires OrchestrationRuns.AdmittedUpTo(s, step.branches, |step.branches|, j)
    ensures var w, name := t.work[k], step.branches[k];
            && Hands(ActivityProcessor, s.definition, w, j, name, 1)
            && w.availableAt == s.at && w.deadline == s.deadline && Routing(w.tenantID, w.correlationID) == s.routing
            && exists b | b in s.branches :: b.stepName == name && w.id == b.workID && w.payload.key == b.key
  {
    hide ValidRegistry, O.FindBranch, ValidIdent, Resolves, Wrapped, OrchestrationRuns.AdmittedUpTo, O.BranchWorks,
         O.BranchEvents;
    BranchAdmitted(s, step.branches, k, j);
    var name := step.branches[k];
    assert O.BranchReady(s, name) && t.work[k] == O.BranchWork(s, name, k);
    assert t.events[k] == O.BranchEvent(s, name, k);
    FirstAttemptAllowed(registry, s.instance, s.definition, ActivityProcessor, name);
    assert O.FindBranch(s.branches, name).value in s.branches;
  }

  /** A scheduled timer's work fires on any later running instance that still waits for it, from its due time on. */
  lemma TimerHands(registry: Registry, i: Instance, j: Instance, s: TimerScheduleSpec, f: TimerFireSpec)
    requires ValidRegistry(registry) && Settled(registry, i) && NewTimerSchedule(s).Some?
    requires Addresses(NewTimerSchedule(s).value, i) && Replayed(registry, i, NewTimerSchedule(s)).Ok?
    requires |NewTimerSchedule(s).value.work| == 1 && f.lease.work == NewTimerSchedule(s).value.work[0]
    requires Settled(registry, j) && j.id == i.id && j.sequence > i.sequence && j.status.Running?
    requires Lookup(j.timers, s.stepName) == Lookup(Replayed(registry, i, NewTimerSchedule(s)).value.timers, s.stepName)
    requires ValidLease(f.lease) && At(j, i.id, f.expected, f.definition) && f.definition == s.definition
    requires ValidIdent(f.transitionID) && f.at != ZERO_TIME && f.at >= j.updatedAt
    requires f.lease.work.availableAt <= f.at < f.lease.work.deadline
    ensures NewTimerFire(f).Some? && Replayed(registry, j, NewTimerFire(f)).Ok?
  {
    hide ApplyAll, Apply, ValidRegistry, ValidTransition, ValidEvent, ValidLease, ValidReference, ValidDefinition, StableName,
         ValidIdent;
    TimerScheduleExactly(registry, i, s);
    var e := EventOn(j, TimerFired, f.at).(stepName := s.stepName);
    TimerNamed(s);
    PinIsValid(registry, j, f.definition);
    LeasedInstance(f.lease);
    FireIsValid(j, s.stepName, f.at);
    PlanAccepted(Transition(f.transitionID, j.id, j.sequence, j.definition, [e], []));
    hide Plan;
    TimerExpected(registry, j, f, e);
  }

  lemma TimerNamed(s: TimerScheduleSpec)
    requires NewTimerSchedule(s).Some?
    ensures StableName(s.stepName) && FindStep(s.definition.steps, s.stepName, StepTimer).Some?
    ensures |NewTimerSchedule(s).value.work| == 1 && |NewTimerSchedule(s).value.events| == 1
    ensures var w := NewTimerSchedule(s).value.work[0];
            && w.payload == Text(s.stepName) && w.kind == WorkTimer && w.instanceID == s.instanceID
            && w.sequence == Next64(s.expected) && w.id == s.workID && w.deadline == s.deadline
            && w.availableAt == s.at + FindStep(s.definition.steps, s.stepName, StepTimer).value.timeout
            && Routing(w.tenantID, w.correlationID) == s.routing
  {
    hide ValidIdent, StableName, ValidTransition;
    assert ValidEvent(NewTimerSchedule(s).value.events[0]);
  }

  lemma FireIsValid(i: Instance, name: string, at: Time)
    requires ValidIdent(i.id) && i.sequence < MAX_UINT64 && at != ZERO_TIME && StableName(name)
    ensures ValidEvent(EventOn(i, TimerFired, at).(stepName := name))
  {
    hide ValidIdent, StableName;
  }

  lemma TimerExpected(registry: Registry, j: Instance, f: TimerFireSpec, e: HistoryEvent)
    requires Settled(registry, j) && At(j, f.lease.work.instanceID, f.expected, f.definition) && ValidLease(f.lease)
    requires e == EventOn(j, TimerFired, f.at).(stepName := f.lease.work.payload.AsName())
    requires f.lease.work.kind.WorkTimer? && f.lease.work.sequence <= j.sequence
    requires f.lease.work.availableAt <= f.at < f.lease.work.deadline && f.at >= j.updatedAt && j.status.Running?
    requires var name := f.lease.work.payload.AsName();
             && FindStep(f.definition.steps, name, StepTimer).Some?
             && name in j.timers && !j.timers[name].fired && f.at >= j.timers[name].dueAt
    requires PlanOn(f.transitionID, j, [e], []).Some?
    ensures NewTimerFire(f).Some? && Replayed(registry, j, NewTimerFire(f)).Ok?
  {
    hide ApplyAll, ValidLease, Plan, Settled;
    assert NewTimerFire(f) == PlanOn(f.transitionID, j, [e], []);
    TimerFireExactly(registry, j, f);
  }

  /** A timer of a valid definition can be scheduled whenever the request names a well-formed instance and work item. */
  lemma TimerPlannable(s: TimerScheduleSpec)
    requires ValidDefinition(s.definition) && FindStep(s.definition.steps, s.stepName, StepTimer).Some?
    requires ValidIdent(s.transitionID) && ValidIdent(s.workID) && ValidIdent(s.instanceID)
    requires 0 < s.expected < MAX_UINT64 && s.at > ZERO_TIME
    requires s.deadline > s.at + FindStep(s.definition.steps, s.stepName, StepTimer).value.timeout
    requires OptionalMetadata(s.routing.tenantID) && OptionalMetadata(s.routing.correlationID)
    ensures NewTimerSchedule(s).Some?
  {
    hide ValidIdent, StableName, BranchesResolve, ValidControlFlow, WellNamedBranches, ValidReference, OptionalMetadata, Plan;
    var step := FindStep(s.definition.steps, s.stepName, StepTimer).value;
    assert step in s.definition.steps && ValidStep(step);
    var e := BlankEvent(Next64(s.expected), s.instanceID, TimerScheduled, s.at).(
      stepName := s.stepName, dueAt := s.at + step.timeout);
    var w := PendingWork(s.workID, WorkTimer, s.instanceID, e.sequence, e.dueAt, s.deadline, Text(s.stepName),
                         s.routing.tenantID, s.routing.correlationID);
    DefinitionReference(s.definition);
    NameFits(s.stepName);
    PlanAccepted(Transition(s.transitionID, s.instanceID, s.expected, s.definition.Reference(), [e], [w]));
  }

  lemma DefinitionReference(d: Definition)
    requires ValidDefinition(d)
    ensures ValidReference(d.Reference())
  {
    hide StableName, BranchesResolve, ValidControlFlow, ValidStep;
  }

  lemma NameFits(name: string)
    requires StableName(name)
    ensures |name| <= 128
  {
  }
}
