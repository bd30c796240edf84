/**
 * What a stored history lets a processor do with a work item: execute the next
 * attempt, finish the current one, or give the item up.
 */
module ProcessorLaw {
  import opened Basics
  import opened Definitions
  import opened Events
  import opened Replay
  import opened ReplayFrames
  import opened ReplayMeaning
  import opened HistoryLaw
  import opened Transitions
  import opened Acceptance

  // --- what a processor sees ----------------------------------------------

  datatype Stage = Admissible | InFlight | KnownFailure | Concluded | ChildEnded

  /** Progress of one step as its processor distinguishes it. */
  datatype Standing = Standing(
    stage: Stage, attempt: Uint32, key: Ident, dueAt: Time, retryable: bool, input: Data)

  function ActivityStage(status: ActivityStatus): Stage {
    match status
    case ActivityReady | ActivityRetryWaiting => Admissible
    case ActivityRunning => InFlight
    case ActivityFailed => KnownFailure
    case ActivitySucceeded | ActivityUnknown => Concluded
  }

  function CompensationStage(status: CompensationStatus): Stage {
    match status
    case CompensationReady | CompensationRetryWaiting => Admissible
    case CompensationRunning => InFlight
    case CompensationFailed => KnownFailure
    case CompensationSucceeded | CompensationUnknown | CompensationResolved => Concluded
  }

  function ChildStage(status: ChildStatus): Stage {
    match status
    case ChildIsScheduled | ChildRetryWaiting => Admissible
    case ChildStartRunning => InFlight
    case ChildStartHasFailed => KnownFailure
    case ChildActive | ChildStartIsUnknown => Concluded
    case ChildSucceeded | ChildHasFailed => ChildEnded
  }

  function StandingOf(kind: ProcessorKind, view: Instance, name: string): Option<Standing> {
    match kind
    case ActivityProcessor =>
      if name !in view.activities then None
      else
        var p := view.activities[name];
        Some(Standing(ActivityStage(p.status), p.attempt, p.idempotencyKey, p.dueAt, p.retryable, p.input))
    case CompensationProcessor =>
      if name !in view.compensations then None
      else
        var p := view.compensations[name];
        Some(Standing(CompensationStage(p.status), p.attempt, p.idempotencyKey, p.dueAt, p.retryable, p.input))
    case ChildProcessor =>
      if name !in view.children then None
      else
        var p := view.children[name];
        Some(Standing(ChildStage(p.status), p.attempt, p.idempotencyKey, p.dueAt, p.retryable, p.input))
  }

  /** Timeout, retry policy and payload limits of the attempts of one step. */
  datatype Policy = Policy(
    target: string, timeout: Duration, retry: RetryPolicy, inputLimit: Uint32, resultLimit: Uint32)

  /** The policy the current definition gives the step, if the work item can still belong to it. */
  function PolicyOf(kind: ProcessorKind, d: Definition, payload: Payload): Option<Policy>
    requires !payload.Text?
  {
    match kind
    case ActivityProcessor =>
      var step := FindStep(d.steps, payload.stepName, StepActivity);
      if step.None? then None
      else Some(Policy(step.value.target, step.value.timeout, step.value.retry, step.value.inputLimit, step.value.resultLimit))
    case CompensationProcessor =>
      var step := FindStep(d.steps, payload.stepName, StepActivity);
      if step.None? || step.value.compensation.None? then None
      else
        var c := step.value.compensation.value;
        Some(Policy(c.target, c.timeout, c.retry, step.value.inputLimit, c.resultLimit))
    case ChildProcessor =>
      var step := FindStep(d.steps, payload.stepName, StepChild);
      if step.None? || !payload.ChildDocument? || step.value.childDefinition != payload.definition then None
      else Some(Policy(step.value.target, step.value.timeout, step.value.retry, step.value.inputLimit, step.value.resultLimit))
  }

  function DecodeWork(kind: ProcessorKind, payload: Payload): Option<Payload> {
    if kind.ChildProcessor? then DecodeChildDispatch(payload) else DecodeDispatch(payload)
  }

  // --- the same, from the history -----------------------------------------

  function TopicOf(kind: ProcessorKind): Topic {
    match kind
    case ActivityProcessor => OfActivity
    case CompensationProcessor => OfCompensation
    case ChildProcessor => OfChild
  }

  /** The events about the attempts a processor of this kind makes of one step. */
  function Attempts(kind: ProcessorKind, name: string, h: seq<HistoryEvent>): seq<HistoryEvent> {
    Tale(TopicOf(kind), name, h)
  }

  /** Attempt `n` is the next: the first one after the admission, or the one a retry calls for. */
  predicate IsNext(tale: seq<HistoryEvent>, n: nat) {
    && tale != []
    && ((Brings(Last(tale), AttemptAdmitted) && n == 1) ||
        (Brings(Last(tale), AttemptRetry) && n == Last(tale).attempt + 1))
  }

  /** Attempt `n` was started under this key, and nothing but its outcome or a resolution came after. */
  predicate IsCurrent(tale: seq<HistoryEvent>, n: nat, key: Ident) {
    && tale != [] && LatestStart(tale).Some? && LatestStart(tale).value.attempt == n
    && LatestStart(tale).value.idempotencyKey == key && !Brings(Last(tale), AttemptRetry) && !IsResult(Last(tale))
  }

  /** The child the work item asks for has reported its own end. */
  predicate IsOver(tale: seq<HistoryEvent>, payload: Payload) {
    && payload.ChildDocument? && tale != [] && IsResult(Last(tale))
    && tale[0].successorID == payload.childID && tale[0].definition == payload.definition
  }

  /** The definition the history pins carries the step, the handler is known, and the item belongs to this history. */
  predicate IsCarried(registry: Registry, handlers: set<string>, kind: ProcessorKind, h: seq<HistoryEvent>, work: PendingWork)
    requires h != [] && !work.payload.Text?
  {
    var pin := PinnedDefinition(h);
    var key := DefinitionKey(pin.name, pin.version);
    && key in registry.definitions && work.sequence <= |h|
    && var policy := PolicyOf(kind, registry.definitions[key], work.payload);
       policy.Some? && work.payload.attempt <= policy.value.retry.maxAttempts &&
       (kind.ChildProcessor? || policy.value.target in handlers)
  }

  lemma ReplayedTale(registry: Registry, h: seq<HistoryEvent>, kind: ProcessorKind, name: string)
    requires h != [] && ValidEvents(h) && ReplayHistory(registry, h).Ok?
    ensures var i, tale := ReplayHistory(registry, h).value, Attempts(kind, name, h);
            && i.sequence == |h| && i.definition == PinnedDefinition(h) && i.updatedAt == Last(h).occurredAt
            && Told(TopicOf(kind), name, h, i) && Numbered(tale)
  {
    hide ReplayHistory, ValidEvents, WellTold, Told, Numbered, StatusSaid, InputSaid, PinnedDefinition;
    ReplaysExactly(registry, h);
  }

  /** The standing of a step read off its attempts. */
  predicate StandingSaid(tale: seq<HistoryEvent>, standing: Option<Standing>) {
    if tale == [] then standing.None?
    else
      var creation := if IsResult(Last(tale)) then tale[..|tale| - 1] else tale;
      && standing.Some?
      && (standing.value.stage.Admissible? <==> Brings(Last(tale), AttemptAdmitted) || Brings(Last(tale), AttemptRetry))
      && (standing.value.stage.InFlight? <==> Brings(Last(tale), AttemptStarted))
      && (standing.value.stage.KnownFailure? <==> Brings(Last(tale), AttemptFailed))
      && (standing.value.stage.ChildEnded? <==> IsResult(Last(tale)))
      && standing.value.attempt == AttemptOf(creation) && standing.value.key == AttemptKey(creation)
      && standing.value.dueAt == PendingTime(creation) && standing.value.input == tale[0].data
      && (!Last(tale).kind.CompensationManuallyResolved? ==> standing.value.retryable == OutcomeRetryable(creation))
  }

  lemma ToldStanding(kind: ProcessorKind, h: seq<HistoryEvent>, i: Instance, name: string)
    requires Told(TopicOf(kind), name, h, i)
    ensures StandingSaid(Attempts(kind, name, h), StandingOf(kind, i, name))
  {
    hide Tale, LatestStart, LatestOutcome, PendingTime;
    var tale := Attempts(kind, name, h);
    TaleKinds(TopicOf(kind), name, h);
  }

  lemma {:induction false} TaleKinds(topic: Topic, name: string, h: seq<HistoryEvent>)
    ensures forall e | e in Tale(topic, name, h) :: Concerns(topic, e.kind) && e.stepName == name
  {
    hide Concerns;
    if h != [] {
      TaleKinds(topic, name, h[..|h| - 1]);
    }
  }

  /** Next, current or neither: how attempt `n` under a key stands, and that the standing shows it. */
  lemma AttemptShown(tale: seq<HistoryEvent>, standing: Standing, n: Uint32, key: Ident)
    requires StandingSaid(tale, Some(standing)) && Numbered(tale) && n > 0
    ensures IsNext(tale, n) <==> standing.stage.Admissible? && n == Next32(standing.attempt)
    ensures IsCurrent(tale, n, key) <==>
            (standing.stage.InFlight? || standing.stage.KnownFailure? || standing.stage.Concluded?) &&
            standing.attempt == n && standing.key == key
  {
    hide LatestOutcome, PendingTime;
    if Brings(Last(tale), AttemptAdmitted) {
      assert !BringsOutcome(Last(tale));
    }
  }
}
