/**
 * What a history says, read off its events alone, and that replay says the
 * same: every replayed field comes from a particular event, and replay accepts
 * one more event exactly when it continues the history's own story.
 */
module ReplayMeaning {
  import opened Basics
  import opened Definitions
  import opened Backoff
  import opened Events
  import opened Replay
  import opened ReplayFrames

  // --- the story of one step ----------------------------------------------

  datatype Topic = OfActivity | OfCompensation | OfChild | OfTimer | OfSignal | OfRace

  predicate Concerns(topic: Topic, kind: EventKind) {
    match topic
    case OfActivity => kind.Activity?
    case OfCompensation => IsCompensationEvent(kind)
    case OfChild => IsChildEvent(kind)
    case OfTimer => kind.TimerScheduled? || kind.TimerFired?
    case OfSignal => kind.SignalReceived?
    case OfRace => kind.RaceWon?
  }

  /** The events of a history about one topic of one step, in order. */
  function Tale(topic: Topic, name: string, h: seq<HistoryEvent>): seq<HistoryEvent> {
    if h == [] then []
    else
      var last := h[|h| - 1];
      Tale(topic, name, h[..|h| - 1]) + if Concerns(topic, last.kind) && last.stepName == name then [last] else []
  }

  lemma TaleSnoc(topic: Topic, name: string, h: seq<HistoryEvent>, e: HistoryEvent)
    ensures Tale(topic, name, h + [e]) ==
            Tale(topic, name, h) + if Concerns(topic, e.kind) && e.stepName == name then [e] else []
  {
    hide Concerns;
    assert (h + [e])[..|h|] == h;
  }

  function Last(tale: seq<HistoryEvent>): HistoryEvent
    requires tale != []
  {
    tale[|tale| - 1]
  }

  /** The phase an event brings its step to. */
  predicate Brings(e: HistoryEvent, phase: AttemptKind) {
    match e.kind
    case Activity(p) => p == phase
    case Compensation(p) => p == phase
    case ChildStart(p) => p == phase
    case _ => false
  }

  predicate BringsOutcome(e: HistoryEvent) {
    Brings(e, AttemptSucceeded) || Brings(e, AttemptFailed) || Brings(e, AttemptUnknown)
  }

  /** The start of the attempt a step is in, if it was started at all. */
  function LatestStart(tale: seq<HistoryEvent>): Option<HistoryEvent> {
    if tale == [] then None
    else if Brings(Last(tale), AttemptStarted) then Some(Last(tale))
    else LatestStart(tale[..|tale| - 1])
  }

  function AttemptOf(tale: seq<HistoryEvent>): Uint32 {
    if LatestStart(tale).None? then 0 else LatestStart(tale).value.attempt
  }

  function AttemptKey(tale: seq<HistoryEvent>): Ident {
    if LatestStart(tale).None? then NO_IDENT else LatestStart(tale).value.idempotencyKey
  }

  /** The latest outcome since the latest start. */
  function LatestOutcome(tale: seq<HistoryEvent>): Option<HistoryEvent> {
    if tale == [] || Brings(Last(tale), AttemptStarted) then None
    else if BringsOutcome(Last(tale)) then Some(Last(tale))
    else LatestOutcome(tale[..|tale| - 1])
  }

  function OutcomeData(tale: seq<HistoryEvent>): Data {
    if LatestOutcome(tale).None? then EMPTY else LatestOutcome(tale).value.data
  }

  function OutcomeCode(tale: seq<HistoryEvent>): string {
    if LatestOutcome(tale).None? then "" else LatestOutcome(tale).value.code
  }

  predicate OutcomeRetryable(tale: seq<HistoryEvent>) {
    LatestOutcome(tale).Some? && LatestOutcome(tale).value.retryable
  }

  /** A deadline is pending while an attempt runs or a retry waits. */
  function PendingTime(tale: seq<HistoryEvent>): Time {
    if tale != [] && (Brings(Last(tale), AttemptStarted) || Brings(Last(tale), AttemptRetry)) then Last(tale).dueAt
    else ZERO_TIME
  }

  // --- what replay makes of it --------------------------------------------

  predicate ActivityStands(status: ActivityStatus, e: HistoryEvent) {
    match status
    case ActivityReady => Brings(e, AttemptAdmitted)
    case ActivityRunning => Brings(e, AttemptStarted)
    case ActivitySucceeded => Brings(e, AttemptSucceeded)
    case ActivityFailed => Brings(e, AttemptFailed)
    case ActivityUnknown => Brings(e, AttemptUnknown)
    case ActivityRetryWaiting => Brings(e, AttemptRetry)
  }

  predicate ActivityTold(tale: seq<HistoryEvent>, name: string, current: Option<ActivityProgress>) {
    if tale == [] then current.None?
    else
      && current.Some? && ActivityStands(current.value.status, Last(tale))
      && current.value == ActivityProgress(
           name, current.value.status, AttemptOf(tale), AttemptKey(tale), PendingTime(tale), tale[0].data,
           OutcomeData(tale), OutcomeCode(tale), OutcomeRetryable(tale))
  }

  predicate CompensationStands(status: CompensationStatus, e: HistoryEvent) {
    match status
    case CompensationReady => Brings(e, AttemptAdmitted)
    case CompensationRunning => Brings(e, AttemptStarted)
    case CompensationSucceeded => Brings(e, AttemptSucceeded)
    case CompensationFailed => Brings(e, AttemptFailed)
    case CompensationUnknown => Brings(e, AttemptUnknown)
    case CompensationRetryWaiting => Brings(e, AttemptRetry)
    case CompensationResolved => e.kind.CompensationManuallyResolved?
  }

  predicate CompensationTold(tale: seq<HistoryEvent>, name: string, current: Option<CompensationProgress>) {
    if tale == [] then current.None?
    else
      var last := Last(tale);
      var resolved := last.kind.CompensationManuallyResolved?;
      && current.Some? && CompensationStands(current.value.status, last)
      && current.value == CompensationProgress(
           name, current.value.status, tale[0].sequence, AttemptOf(tale), AttemptKey(tale), PendingTime(tale), tale[0].data,
           if resolved then last.data else OutcomeData(tale), if resolved then last.code else OutcomeCode(tale),
           !resolved && OutcomeRetryable(tale))
  }

  predicate IsResult(e: HistoryEvent) {
    e.kind.ChildCompleted? || e.kind.ChildFailed?
  }

  predicate ChildStands(status: ChildStatus, e: HistoryEvent) {
    match status
    case ChildIsScheduled => Brings(e, AttemptAdmitted)
    case ChildStartRunning => Brings(e, AttemptStarted)
    case ChildActive => Brings(e, AttemptSucceeded)
    case ChildStartHasFailed => Brings(e, AttemptFailed)
    case ChildStartIsUnknown => Brings(e, AttemptUnknown)
    case ChildRetryWaiting => Brings(e, AttemptRetry)
    case ChildSucceeded => e.kind.ChildCompleted?
    case ChildHasFailed => e.kind.ChildFailed?
  }

  /** A child keeps the key, the pending time and the retryability of its creation when its result comes. */
  predicate ChildTold(tale: seq<HistoryEvent>, name: string, current: Option<ChildProgress>) {
    if tale == [] then current.None?
    else
      var last := Last(tale);
      var creation := if IsResult(last) then tale[..|tale| - 1] else tale;
      && current.Some? && ChildStands(current.value.status, last)
      && current.value == ChildProgress(
           name, tale[0].successorID, tale[0].definition, current.value.status, tale[0].data,
           if IsResult(last) then last.data else EMPTY, if IsResult(last) then last.code else OutcomeCode(creation),
           AttemptOf(creation), AttemptKey(creation), PendingTime(creation), OutcomeRetryable(creation))
  }

  predicate TimerTold(tale: seq<HistoryEvent>, name: string, current: Option<TimerProgress>) {
    if tale == [] then current.None?
    else
      && |tale| <= 2 && tale[0].kind.TimerScheduled?
      && (|tale| == 2 ==> tale[1].kind.TimerFired? && tale[1].occurredAt >= tale[0].dueAt)
      && current == Some(TimerProgress(name, |tale| == 2, tale[0].dueAt,
                                       if |tale| == 2 then tale[1].occurredAt else ZERO_TIME))
  }

  predicate SignalTold(tale: seq<HistoryEvent>, name: string, current: Option<SignalProgress>) {
    if tale == [] then current.None?
    else |tale| == 1 && current == Some(SignalProgress(name, tale[0].idempotencyKey, tale[0].occurredAt, tale[0].data))
  }

  predicate RaceTold(tale: seq<HistoryEvent>, name: string, current: Option<RaceProgress>) {
    if tale == [] then current.None?
    else |tale| == 1 && current == Some(RaceProgress(name, tale[0].data.AsName(), tale[0].occurredAt))
  }

  /** Replayed progress of one step is what the step's own events say. */
  predicate Told(topic: Topic, name: string, h: seq<HistoryEvent>, i: Instance) {
    var tale := Tale(topic, name, h);
    match topic
    case OfActivity => ActivityTold(tale, name, Lookup(i.activities, name))
    case OfCompensation => CompensationTold(tale, name, Lookup(i.compensations, name))
    case OfChild => ChildTold(tale, name, Lookup(i.children, name))
    case OfTimer => TimerTold(tale, name, Lookup(i.timers, name))
    case OfSignal => SignalTold(tale, name, Lookup(i.signals, name))
    case OfRace => RaceTold(tale, name, Lookup(i.races, name))
  }

  // --- one more event of a step -------------------------------------------

  /** Everything a longer tale says, in terms of the shorter one. */
  lemma TaleGrows(tale: seq<HistoryEvent>, e: HistoryEvent)
    ensures Last(tale + [e]) == e && (tale != [] ==> (tale + [e])[0] == tale[0])
    ensures LatestStart(tale + [e]) == if Brings(e, AttemptStarted) then Some(e) else LatestStart(tale)
    ensures LatestOutcome(tale + [e]) == if Brings(e, AttemptStarted) then None
                                         else if BringsOutcome(e) then Some(e)
                                         else LatestOutcome(tale)
  {
    hide Brings, BringsOutcome;
    assert (tale + [e])[..|tale|] == tale;
  }

  /** Attempt fields the event format fixes. */
  lemma AttemptFields(e: HistoryEvent)
    requires ValidEvent(e)
    ensures Brings(e, AttemptSucceeded) ==> e.code == "" && !e.retryable
    ensures Brings(e, AttemptUnknown) ==> !e.retryable
    ensures (e.kind.Activity? || e.kind.Compensation? || e.kind.ChildStart?) && !Brings(e, AttemptAdmitted) ==> e.attempt > 0
  {
    hide ValidIdent, StableName;
  }

  /** When an activity event continues its step's tale under the step's policy. */
  predicate ActivityContinues(step: StepSpec, status: InstanceStatus, tale: seq<HistoryEvent>, phase: AttemptKind,
                              e: HistoryEvent)
  {
    match phase
    case AttemptAdmitted => tale == [] && status.Running? && e.data.Size() <= step.inputLimit
    case AttemptStarted =>
      && status.Running? && Startable(tale, e) && e.attempt <= step.retry.maxAttempts
      && e.dueAt == e.occurredAt + step.timeout
    case AttemptSucceeded | AttemptFailed | AttemptUnknown => Ends(tale, e) && e.data.Size() <= step.resultLimit
    case AttemptRetry => status.Running? && Retries(tale, step.retry, e)
  }

  /** Attempt one after the admission, or the next attempt once a retry is due. */
  predicate Startable(tale: seq<HistoryEvent>, e: HistoryEvent) {
    && tale != []
    && ((Brings(Last(tale), AttemptAdmitted) && e.attempt == 1) ||
        (Brings(Last(tale), AttemptRetry) && e.attempt == Last(tale).attempt + 1 && e.occurredAt >= Last(tale).dueAt))
  }

  /** An outcome of the attempt just started. */
  predicate Ends(tale: seq<HistoryEvent>, e: HistoryEvent) {
    tale != [] && Brings(Last(tale), AttemptStarted) && e.attempt == Last(tale).attempt
  }

  /** A retry of the attempt that just failed retryably, at the policy's delay. */
  predicate Retries(tale: seq<HistoryEvent>, policy: RetryPolicy, e: HistoryEvent) {
    && tale != [] && Brings(Last(tale), AttemptFailed) && Last(tale).retryable
    && e.attempt == Last(tale).attempt < policy.maxAttempts
    && e.dueAt == e.occurredAt + RetryDelay(policy, e.attempt)
  }

  /** The attempt numbers of a tale hang together: each event carries the latest start's. */
  predicate Numbered(tale: seq<HistoryEvent>) {
    tale != [] ==>
      if Brings(Last(tale), AttemptAdmitted) then AttemptOf(tale) == 0
      else if Brings(Last(tale), AttemptStarted) || BringsOutcome(Last(tale)) || Brings(Last(tale), AttemptRetry) then
        0 < AttemptOf(tale) == Last(tale).attempt
        && (Brings(Last(tale), AttemptFailed) ==> LatestOutcome(tale) == Some(Last(tale)))
      else true
  }

  lemma ActivityTells(step: StepSpec, status: InstanceStatus, tale: seq<HistoryEvent>, name: string,
                     current: Option<ActivityProgress>, e: HistoryEvent)
    requires ActivityTold(tale, name, current) && Numbered(tale) && ValidEvent(e) && e.kind.Activity? && e.stepName == name
    ensures ActivityNext(step, status, current, e.kind.phase, e).Some? <==>
            ActivityContinues(step, status, tale, e.kind.phase, e)
    ensures ActivityNext(step, status, current, e.kind.phase, e).Some? ==>
              ActivityTold(tale + [e], name, ActivityNext(step, status, current, e.kind.phase, e)) && Numbered(tale + [e])
  {
    hide ValidEvent, RetryDelay, LatestStart, LatestOutcome;
    AttemptFields(e);
    TaleGrows(tale, e);
    NothingYet();
  }

  lemma NothingYet()
    ensures LatestStart([]) == None && LatestOutcome([]) == None
  {
  }

  lemma JustStarted(tale: seq<HistoryEvent>)
    requires tale != [] && Brings(Last(tale), AttemptStarted)
    ensures LatestStart(tale) == Some(Last(tale)) && LatestOutcome(tale) == None
  {
  }

  /** When a compensation event continues its step's tale; the activity's own tale must have ended well. */
  predicate CompensationContinues(policy: CompensationSpec, status: InstanceStatus, activity: seq<HistoryEvent>,
                                  tale: seq<HistoryEvent>, e: HistoryEvent)
    requires IsCompensationEvent(e.kind)
  {
    if e.kind.CompensationManuallyResolved? then
      && tale != [] && (Brings(Last(tale), AttemptFailed) || Brings(Last(tale), AttemptUnknown))
      && e.data.Size() <= policy.resultLimit
    else
      match e.kind.phase
      case AttemptAdmitted =>
        && tale == [] && (status.Running? || status.Cancelling?)
        && activity != [] && Brings(Last(activity), AttemptSucceeded)
      case AttemptStarted =>
        && Startable(tale, e) && e.attempt <= policy.retry.maxAttempts && e.dueAt == e.occurredAt + policy.timeout
      case AttemptSucceeded | AttemptFailed | AttemptUnknown => Ends(tale, e) && e.data.Size() <= policy.resultLimit
      case AttemptRetry => Retries(tale, policy.retry, e)
  }

  /** The new progress of a compensation event, of either kind. */
  function CompensationAfter(policy: CompensationSpec, status: InstanceStatus, activity: Option<ActivityProgress>,
                             current: Option<CompensationProgress>, e: HistoryEvent): Option<CompensationProgress>
    requires IsCompensationEvent(e.kind)
  {
    if e.kind.Compensation? then CompensationNext(policy, status, activity, current, e.kind.phase, e)
    else ResolutionNext(policy, current, e)
  }

  lemma ResolutionStep(policy: CompensationSpec, tale: seq<HistoryEvent>, name: string,
                       current: Option<CompensationProgress>, e: HistoryEvent)
    requires CompensationTold(tale, name, current) && e.kind.CompensationManuallyResolved? && e.stepName == name
    ensures ResolutionNext(policy, current, e).Some? <==> CompensationContinues(policy, Running, [], tale, e)
    ensures ResolutionNext(policy, current, e).Some? ==>
              CompensationTold(tale + [e], name, ResolutionNext(policy, current, e)) && Numbered(tale + [e])
  {
    hide LatestStart, LatestOutcome;
    TaleGrows(tale, e);
  }

  lemma AdmittedCompensationStep(policy: CompensationSpec, status: InstanceStatus, activityTale: seq<HistoryEvent>,
                                 activity: Option<ActivityProgress>, tale: seq<HistoryEvent>, name: string,
                                 current: Option<CompensationProgress>, e: HistoryEvent)
    requires ActivityTold(activityTale, name, activity) && CompensationTold(tale, name, current)
    requires e.kind == Compensation(AttemptAdmitted) && e.stepName == name
    ensures CompensationNext(policy, status, activity, current, AttemptAdmitted, e).Some? <==>
            CompensationContinues(policy, status, activityTale, tale, e)
    ensures CompensationNext(policy, status, activity, current, AttemptAdmitted, e).Some? ==>
              CompensationTold(tale + [e], name, CompensationNext(policy, status, activity, current, AttemptAdmitted, e)) &&
              Numbered(tale + [e])
  {
    hide LatestStart, LatestOutcome, Startable, Ends, Retries;
    TaleGrows(tale, e);
    NothingYet();
  }

  lemma AttemptedCompensationStep(policy: CompensationSpec, status: InstanceStatus, activityTale: seq<HistoryEvent>,
                                  activity: Option<ActivityProgress>, tale: seq<HistoryEvent>, name: string,
                                  current: Option<CompensationProgress>, e: HistoryEvent)
    requires CompensationTold(tale, name, current) && Numbered(tale)
    requires ValidEvent(e) && e.kind.Compensation? && !e.kind.phase.AttemptAdmitted? && e.stepName == name
    ensures CompensationNext(policy, status, activity, current, e.kind.phase, e).Some? <==>
            CompensationContinues(policy, status, activityTale, tale, e)
    ensures CompensationNext(policy, status, activity, current, e.kind.phase, e).Some? ==>
              CompensationTold(tale + [e], name, CompensationNext(policy, status, activity, current, e.kind.phase, e)) &&
              Numbered(tale + [e])
  {
    hide ValidEvent, RetryDelay, LatestStart, LatestOutcome;
    AttemptFields(e);
    TaleGrows(tale, e);
    match e.kind.phase
    case AttemptStarted =>
    case AttemptSucceeded =>
    case AttemptFailed =>
    case AttemptUnknown =>
    case AttemptRetry =>
  }

  lemma CompensationTells(policy: CompensationSpec, status: InstanceStatus, activityTale: seq<HistoryEvent>,
                         activity: Option<ActivityProgress>, tale: seq<HistoryEvent>, name: string,
                         current: Option<CompensationProgress>, e: HistoryEvent)
    requires ActivityTold(activityTale, name, activity) && CompensationTold(tale, name, current) && Numbered(tale)
    requires ValidEvent(e) && IsCompensationEvent(e.kind) && e.stepName == name
    ensures CompensationAfter(policy, status, activity, current, e).Some? <==>
            CompensationContinues(policy, status, activityTale, tale, e)
    ensures CompensationAfter(policy, status, activity, current, e).Some? ==>
              CompensationTold(tale + [e], name, CompensationAfter(policy, status, activity, current, e)) &&
              Numbered(tale + [e])
  {
    hide ValidEvent, ActivityTold, CompensationTold, Numbered, CompensationNext, ResolutionNext, Startable, Ends, Retries;
    if e.kind.CompensationManuallyResolved? {
      ResolutionStep(policy, tale, name, current, e);
    } else if e.kind.phase.AttemptAdmitted? {
      AdmittedCompensationStep(policy, status, activityTale, activity, tale, name, current, e);
    } else {
      AttemptedCompensationStep(policy, status, activityTale, activity, tale, name, current, e);
    }
  }

  /** When a child event continues its step's tale. */
  predicate ChildContinues(registry: Registry, step: StepSpec, tale: seq<HistoryEvent>, e: HistoryEvent)
    requires IsChildEvent(e.kind)
  {
    if Brings(e, AttemptAdmitted) then
      tale == [] && e.definition == step.childDefinition && Resolves(registry, e.definition) &&
      e.data.Size() <= step.inputLimit
    else
      && tale != [] && e.successorID == tale[0].successorID
      && match e.kind
         case ChildStart(AttemptStarted) =>
           && Startable(tale, e) && e.attempt <= step.retry.maxAttempts && e.dueAt == e.occurredAt + step.timeout
         case ChildStart(AttemptRetry) => Retries(tale, step.retry, e)
         case ChildStart(_) => Ends(tale, e)
         case _ =>
           && !IsResult(Last(tale)) && !Brings(Last(tale), AttemptFailed) && !Brings(Last(tale), AttemptRetry)
           && e.data.Size() <= step.resultLimit
  }

  function ChildAfter(registry: Registry, step: StepSpec, current: Option<ChildProgress>, e: HistoryEvent)
    : Option<ChildProgress>
    requires IsChildEvent(e.kind)
  {
    if e.kind.ChildStart? then ChildStartNext(registry, step, current, e.kind.phase, e)
    else ChildOutcomeNext(step, current, e)
  }

  lemma ChildResultStep(registry: Registry, step: StepSpec, tale: seq<HistoryEvent>, name: string,
                        current: Option<ChildProgress>, e: HistoryEvent)
    requires ChildTold(tale, name, current) && IsResult(e) && e.stepName == name
    ensures ChildOutcomeNext(step, current, e).Some? <==> ChildContinues(registry, step, tale, e)
    ensures ChildOutcomeNext(step, current, e).Some? ==>
              ChildTold(tale + [e], name, ChildOutcomeNext(step, current, e)) && Numbered(tale + [e])
  {
    hide LatestStart, LatestOutcome;
    TaleGrows(tale, e);
    assert (tale + [e])[..|tale|] == tale;
  }

  lemma ChildStartStep(registry: Registry, step: StepSpec, tale: seq<HistoryEvent>, name: string,
                       current: Option<ChildProgress>, e: HistoryEvent)
    requires ChildTold(tale, name, current) && Numbered(tale)
    requires ValidEvent(e) && e.kind.ChildStart? && e.stepName == name
    ensures ChildStartNext(registry, step, current, e.kind.phase, e).Some? <==> ChildContinues(registry, step, tale, e)
    ensures ChildStartNext(registry, step, current, e.kind.phase, e).Some? ==>
              ChildTold(tale + [e], name, ChildStartNext(registry, step, current, e.kind.phase, e)) && Numbered(tale + [e])
  {
    hide ValidEvent, RetryDelay, LatestStart, LatestOutcome, Resolves;
    AttemptFields(e);
    TaleGrows(tale, e);
    NothingYet();
    match e.kind.phase
    case AttemptAdmitted =>
    case AttemptStarted =>
    case AttemptSucceeded =>
      if Ends(tale, e) {
        JustStarted(tale);
      }
    case AttemptFailed =>
    case AttemptUnknown =>
    case AttemptRetry =>
  }

  lemma ChildTells(registry: Registry, step: StepSpec, tale: seq<HistoryEvent>, name: string,
                  current: Option<ChildProgress>, e: HistoryEvent)
    requires ChildTold(tale, name, current) && Numbered(tale)
    requires ValidEvent(e) && IsChildEvent(e.kind) && e.stepName == name
    ensures ChildAfter(registry, step, current, e).Some? <==> ChildContinues(registry, step, tale, e)
    ensures ChildAfter(registry, step, current, e).Some? ==>
              ChildTold(tale + [e], name, ChildAfter(registry, step, current, e)) && Numbered(tale + [e])
  {
    hide ValidEvent, ChildTold, Numbered, ChildStartNext, ChildOutcomeNext, ChildContinues;
    if e.kind.ChildStart? {
      ChildStartStep(registry, step, tale, name, current, e);
    } else {
      ChildResultStep(registry, step, tale, name, current, e);
    }
  }

  predicate TimerContinues(step: StepSpec, status: InstanceStatus, tale: seq<HistoryEvent>, e: HistoryEvent) {
    && status.Running?
    && if e.kind.TimerScheduled? then tale == [] && e.dueAt == e.occurredAt + step.timeout
       else |tale| == 1 && e.occurredAt >= tale[0].dueAt
  }

  lemma TimerTells(step: StepSpec, status: InstanceStatus, tale: seq<HistoryEvent>, name: string,
                  current: Option<TimerProgress>, e: HistoryEvent)
    requires TimerTold(tale, name, current) && (e.kind.TimerScheduled? || e.kind.TimerFired?) && e.stepName == name
    ensures TimerNext(step, status, current, e).Some? <==> TimerContinues(step, status, tale, e)
    ensures TimerNext(step, status, current, e).Some? ==> TimerTold(tale + [e], name, TimerNext(step, status, current, e))
  {
  }

  predicate SignalContinues(step: StepSpec, status: InstanceStatus, tale: seq<HistoryEvent>, e: HistoryEvent) {
    (status.Running? || status.Paused?) && tale == [] && e.data.Size() <= step.inputLimit
  }

  lemma SignalTells(step: StepSpec, status: InstanceStatus, tale: seq<HistoryEvent>, name: string,
                   current: Option<SignalProgress>, e: HistoryEvent)
    requires SignalTold(tale, name, current) && e.stepName == name
    ensures SignalNext(step, status, current, e).Some? <==> SignalContinues(step, status, tale, e)
    ensures SignalNext(step, status, current, e).Some? ==> SignalTold(tale + [e], name, SignalNext(step, status, current, e))
  {
  }
}
