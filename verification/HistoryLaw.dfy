/**
 * The law of histories. `WellTold` says, from the events alone, which sequences
 * of events are histories; replay accepts exactly those, and every field of the
 * replayed instance is the one the events say.
 */
module HistoryLaw {
  import opened Basics
  import opened Definitions
  import opened Events
  import opened Replay
  import opened ReplayFrames
  import opened ReplayMeaning
  import opened Acceptance

  // --- what the events say about the whole instance -----------------------

  function StatusMeant(change: LifecycleKind): InstanceStatus {
    match change
    case InstanceStarted | InstanceResumed | DefinitionMigrated => Running
    case InstancePaused => Paused
    case CancellationRequested => Cancelling
    case InstanceCancelled => Cancelled
    case InstanceCompleted => Completed
    case InstanceFailed => Failed
    case InstanceTerminated => Terminated
    case ContinuedAsNew => Continued
  }

  /** The status the latest status-changing event means. */
  function StatusSaid(h: seq<HistoryEvent>): InstanceStatus {
    if h == [] then NotStarted
    else if ChangesStatus(Last(h).kind) then StatusMeant(Last(h).kind.change)
    else StatusSaid(h[..|h| - 1])
  }

  /** The data of the start, or of the latest migration. */
  function InputSaid(h: seq<HistoryEvent>): Data {
    if h == [] then EMPTY
    else if IsStart(Last(h).kind) || IsMigration(Last(h).kind) then Last(h).data
    else InputSaid(h[..|h| - 1])
  }

  /** An ended instance's result is the data of the event that ended it; a continued one has a successor instead. */
  function ResultSaid(h: seq<HistoryEvent>): Data
    requires h != []
  {
    if IsTerminalEvent(Last(h).kind) && !IsContinuation(Last(h).kind) then Last(h).data else EMPTY
  }

  function SuccessorSaid(h: seq<HistoryEvent>): Ident
    requires h != []
  {
    if IsContinuation(Last(h).kind) then Last(h).successorID else NO_IDENT
  }

  /** The action an audit at the very end still calls for. */
  function ActionDue(h: seq<HistoryEvent>): OperatorAction
    requires h != []
  {
    if Last(h).kind.OperatorCommandRecorded? && Last(h).data.AuditDocument? then Last(h).data.action else NoAction
  }

  predicate HeaderTold(h: seq<HistoryEvent>, i: Instance) {
    && h != []
    && i.id == h[0].instanceID && i.sequence == |h|
    && i.startedAt == h[0].occurredAt && i.updatedAt == Last(h).occurredAt
    && i.definition == PinnedDefinition(h) && i.status == StatusSaid(h)
    && i.input == InputSaid(h) && i.result == ResultSaid(h) && i.successorID == SuccessorSaid(h)
    && i.pendingOperator == ActionDue(h) && Terminal(i.status) == IsTerminalEvent(Last(h).kind)
    && (Last(h).kind.OperatorCommandRecorded? <==> ActionDue(h) != NoAction)
  }

  /** The instance is in every field what the history says. */
  ghost predicate Tells(h: seq<HistoryEvent>, i: Instance) {
    && HeaderTold(h, i)
    && (forall topic: Topic, name :: Told(topic, name, h, i))
    && (forall topic: Topic, name :: Numbered(Tale(topic, name, h)))
  }

  // --- which events continue a history ------------------------------------

  predicate LifecycleContinues(registry: Registry, h: seq<HistoryEvent>, e: HistoryEvent)
    requires h != [] && e.kind.Lifecycle?
  {
    var status := StatusSaid(h);
    match e.kind.change
    case InstanceStarted => false
    case InstancePaused => status.Running?
    case InstanceResumed => status.Paused?
    case CancellationRequested => status.Running? || status.Paused?
    case InstanceCancelled => status.Cancelling?
    case InstanceCompleted | InstanceFailed => status.Running?
    case InstanceTerminated => true
    case DefinitionMigrated =>
      var pin := PinnedDefinition(h);
      && status.Paused? && e.definition.name == pin.name && Resolves(registry, e.definition)
      && MigrationKey(pin.name, pin.version, e.definition.version) in registry.migrations
    case ContinuedAsNew => status.Running? && Resolves(registry, e.definition)
  }

  predicate StepContinues(registry: Registry, h: seq<HistoryEvent>, e: HistoryEvent)
    requires h != [] && !e.kind.Lifecycle?
  {
    var steps, status := CurrentSteps(registry, PinnedDefinition(h)), StatusSaid(h);
    match e.kind
    case Activity(phase) =>
      var step := FindStep(steps, e.stepName, StepActivity);
      step.Some? && ActivityContinues(step.value, status, Tale(OfActivity, e.stepName, h), phase, e)
    case Compensation(_) | CompensationManuallyResolved =>
      var step := FindStep(steps, e.stepName, StepActivity);
      && step.Some? && step.value.compensation.Some?
      && CompensationContinues(step.value.compensation.value, status, Tale(OfActivity, e.stepName, h),
                               Tale(OfCompensation, e.stepName, h), e)
    case ChildStart(_) | ChildCompleted | ChildFailed =>
      var step := FindStep(steps, e.stepName, StepChild);
      && step.Some? && status.Running?
      && ChildContinues(registry, step.value, Tale(OfChild, e.stepName, h), e)
    case TimerScheduled | TimerFired =>
      var step := FindStep(steps, e.stepName, StepTimer);
      step.Some? && TimerContinues(step.value, status, Tale(OfTimer, e.stepName, h), e)
    case SignalReceived =>
      var step := SignalStep(steps, e.stepName);
      step.Some? && SignalContinues(step.value, status, Tale(OfSignal, e.stepName, h), e)
    case RaceWon =>
      var step, winner := FindStep(steps, e.stepName, StepRace), e.data.AsName();
      && step.Some? && status.Running? && Tale(OfRace, e.stepName, h) == []
      && winner in step.value.branches && Tale(OfSignal, winner, h) != []
    case OperatorCommandRecorded => ActionDue(h) == NoAction
    case Lifecycle(_) => true
  }

  /** The event is the next of this instance, nothing has ended it, and it is the action a preceding audit calls for. */
  predicate Follows(h: seq<HistoryEvent>, e: HistoryEvent)
    requires h != []
  {
    && e.instanceID == h[0].instanceID && e.sequence == |h| + 1 && e.occurredAt >= Last(h).occurredAt
    && !IsTerminalEvent(Last(h).kind)
    && (ActionDue(h) != NoAction ==> CompletesAction(ActionDue(h), e.kind))
  }

  predicate Continues(registry: Registry, h: seq<HistoryEvent>, e: HistoryEvent)
    requires h != []
  {
    Follows(h, e) && if e.kind.Lifecycle? then LifecycleContinues(registry, h, e) else StepContinues(registry, h, e)
  }

  predicate Begins(registry: Registry, e: HistoryEvent) {
    IsStart(e.kind) && e.sequence == 1 && Resolves(registry, e.definition)
  }

  /** A start, and then events each of which continues what comes before it. */
  predicate WellTold(registry: Registry, h: seq<HistoryEvent>) {
    && h != []
    && if |h| == 1 then Begins(registry, h[0])
       else WellTold(registry, h[..|h| - 1]) && Continues(registry, h[..|h| - 1], Last(h))
  }

  // --- one event ----------------------------------------------------------

  predicate SameProgress(topic: Topic, name: string, i: Instance, j: Instance) {
    match topic
    case OfActivity => Lookup(i.activities, name) == Lookup(j.activities, name)
    case OfCompensation => Lookup(i.compensations, name) == Lookup(j.compensations, name)
    case OfChild => Lookup(i.children, name) == Lookup(j.children, name)
    case OfTimer => Lookup(i.timers, name) == Lookup(j.timers, name)
    case OfSignal => Lookup(i.signals, name) == Lookup(j.signals, name)
    case OfRace => Lookup(i.races, name) == Lookup(j.races, name)
  }

  /** Steps an event does not concern keep their tale and their progress. */
  lemma ToldKept(topic: Topic, name: string, h: seq<HistoryEvent>, i: Instance, e: HistoryEvent, j: Instance)
    requires Told(topic, name, h, i) && SameProgress(topic, name, i, j)
    requires !Concerns(topic, e.kind) || e.stepName != name
    ensures Told(topic, name, h + [e], j) && Tale(topic, name, h + [e]) == Tale(topic, name, h)
  {
    hide Concerns, Tale, ActivityTold, CompensationTold, ChildTold, TimerTold, SignalTold, RaceTold;
    TaleSnoc(topic, name, h, e);
    assert Tale(topic, name, h) + [] == Tale(topic, name, h);
  }

  /** One topic's progress of one step is told anew, everything else as before. */
  lemma TellsOn(topic: Topic, h: seq<HistoryEvent>, i: Instance, e: HistoryEvent, j: Instance)
    requires Tells(h, i) && HeaderTold(h + [e], j)
    requires Concerns(topic, e.kind) && Told(topic, e.stepName, h + [e], j) && Numbered(Tale(topic, e.stepName, h + [e]))
    requires forall t: Topic, n | t != topic || n != e.stepName :: SameProgress(t, n, i, j)
    ensures Tells(h + [e], j)
  {
    hide HeaderTold, Told, Numbered, SameProgress;
    forall t: Topic, n ensures Told(t, n, h + [e], j) && Numbered(Tale(t, n, h + [e])) {
      if t != topic || n != e.stepName {
        if t != topic {
          OneTopic(topic, t, e.kind);
        }
        ToldKept(t, n, h, i, e, j);
      }
    }
  }

  lemma OneTopic(a: Topic, b: Topic, kind: EventKind)
    requires Concerns(a, kind) && a != b
    ensures !Concerns(b, kind)
  {
  }

  /** An event about no step tells nothing new of any. */
  lemma TellsAll(h: seq<HistoryEvent>, i: Instance, e: HistoryEvent, j: Instance)
    requires Tells(h, i) && HeaderTold(h + [e], j) && (e.kind.Lifecycle? || e.kind.OperatorCommandRecorded?)
    requires forall t: Topic, n :: SameProgress(t, n, i, j)
    ensures Tells(h + [e], j)
  {
    hide HeaderTold, Told, Numbered, SameProgress;
    forall t: Topic, n ensures Told(t, n, h + [e], j) && Numbered(Tale(t, n, h + [e])) {
      assert !Concerns(t, e.kind);
      ToldKept(t, n, h, i, e, j);
    }
  }

  /** A step event leaves the header but for its position and time. */
  lemma StepHeader(h: seq<HistoryEvent>, i: Instance, e: HistoryEvent, j: Instance)
    requires HeaderTold(h, i) && !e.kind.Lifecycle? && ValidEvent(e) && e.sequence == |h| + 1
    requires !IsTerminalEvent(Last(h).kind)
    requires j.id == i.id && j.sequence == e.sequence && j.startedAt == i.startedAt && j.updatedAt == e.occurredAt
    requires j.definition == i.definition && j.status == i.status && j.input == i.input && j.result == i.result
    requires j.successorID == i.successorID
    requires j.pendingOperator == if e.kind.OperatorCommandRecorded? then e.data.action else NoAction
    requires e.kind.OperatorCommandRecorded? ==> e.data.AuditDocument? && !e.data.action.NoAction?
    ensures HeaderTold(h + [e], j)
  {
    hide ValidEvent;
    assert (h + [e])[..|h|] == h;
  }

  /** What the header tells about fitting the next event. */
  lemma FollowsFits(h: seq<HistoryEvent>, i: Instance, e: HistoryEvent)
    requires HeaderTold(h, i) && ValidEvent(e)
    ensures Follows(h, e) <==> Fits(i, e) && !Terminal(i.status)
    ensures e.sequence > 0
  {
    hide Terminal, IsTerminalEvent, CompletesAction, StatusSaid, InputSaid, PinnedDefinition;
    PositiveSequence(e);
  }

  lemma RefusesUnfit(registry: Registry, i: Instance, e: HistoryEvent)
    requires 0 < i.sequence && (!Fits(i, e) || Terminal(i.status))
    ensures Apply(registry, i, e).Err?
  {
    hide Dispatch, CompletesAction, Terminal, Next64;
  }

  /** The header part of every step event. */
  lemma StepEventHeader(h: seq<HistoryEvent>, i: Instance, e: HistoryEvent, j: Instance)
    requires HeaderTold(h, i) && !e.kind.Lifecycle? && !e.kind.OperatorCommandRecorded? && ValidEvent(e) && Follows(h, e)
    requires j == Advanced(i, e).(activities := j.activities, compensations := j.compensations, children := j.children,
                                  timers := j.timers, signals := j.signals, races := j.races)
    ensures HeaderTold(h + [e], j)
  {
    hide ValidEvent, HeaderTold, CompletesAction;
    StepHeader(h, i, e, j);
  }

  lemma ActivityFollows(registry: Registry, h: seq<HistoryEvent>, i: Instance, e: HistoryEvent)
    requires Tells(h, i) && ValidEvent(e) && e.kind.Activity? && Follows(h, e)
    ensures Apply(registry, i, e).Ok? <==> StepContinues(registry, h, e)
    ensures Apply(registry, i, e).Ok? ==> Tells(h + [e], Apply(registry, i, e).value)
  {
    hide Apply, Follows, Fits, Terminal, CompletesAction, ValidEvent, Tale, Numbered, ActivityTold,
         ActivityContinues, ActivityNext;
    FollowsFits(h, i, e);
    AcceptActivity(registry, i, e);
    TaleSnoc(OfActivity, e.stepName, h, e);
    assert Told(OfActivity, e.stepName, h, i);
    var step := FindStep(CurrentSteps(registry, i.definition), e.stepName, StepActivity);
    if step.Some? {
      ActivityTells(step.value, i.status, Tale(OfActivity, e.stepName, h), e.stepName, Lookup(i.activities, e.stepName), e);
    }
    if Apply(registry, i, e).Ok? {
      var j := Apply(registry, i, e).value;
      StepEventHeader(h, i, e, j);
      hide ApplyActivity, Told, StepContinues;
      TellsOn(OfActivity, h, i, e, j);
    }
  }

  lemma CompensationFollows(registry: Registry, h: seq<HistoryEvent>, i: Instance, e: HistoryEvent)
    requires Tells(h, i) && ValidEvent(e) && IsCompensationEvent(e.kind) && Follows(h, e)
    ensures Apply(registry, i, e).Ok? <==> StepContinues(registry, h, e)
    ensures Apply(registry, i, e).Ok? ==> Tells(h + [e], Apply(registry, i, e).value)
  {
    hide Apply, Follows, Fits, Terminal, CompletesAction, ValidEvent, Tale, Numbered, ActivityTold, CompensationTold,
         CompensationContinues, CompensationNext, ResolutionNext;
    FollowsFits(h, i, e);
    AcceptCompensation(registry, i, e);
    TaleSnoc(OfCompensation, e.stepName, h, e);
    assert Told(OfCompensation, e.stepName, h, i);
    assert Told(OfActivity, e.stepName, h, i);
    var step := FindStep(CurrentSteps(registry, i.definition), e.stepName, StepActivity);
    if step.Some? && step.value.compensation.Some? {
      CompensationTells(step.value.compensation.value, i.status, Tale(OfActivity, e.stepName, h),
                        Lookup(i.activities, e.stepName), Tale(OfCompensation, e.stepName, h), e.stepName,
                        Lookup(i.compensations, e.stepName), e);
    }
    if Apply(registry, i, e).Ok? {
      var j := Apply(registry, i, e).value;
      StepEventHeader(h, i, e, j);
      hide ApplyCompensation, Told, StepContinues;
      TellsOn(OfCompensation, h, i, e, j);
    }
  }

  lemma ChildFollows(registry: Registry, h: seq<HistoryEvent>, i: Instance, e: HistoryEvent)
    requires Tells(h, i) && ValidEvent(e) && IsChildEvent(e.kind) && Follows(h, e)
    ensures Apply(registry, i, e).Ok? <==> StepContinues(registry, h, e)
    ensures Apply(registry, i, e).Ok? ==> Tells(h + [e], Apply(registry, i, e).value)
  {
    hide Apply, Follows, Fits, Terminal, CompletesAction, ValidEvent, Tale, Numbered, ChildTold, ChildContinues,
         ChildStartNext, ChildOutcomeNext;
    FollowsFits(h, i, e);
    AcceptChild(registry, i, e);
    TaleSnoc(OfChild, e.stepName, h, e);
    assert Told(OfChild, e.stepName, h, i);
    var step := FindStep(CurrentSteps(registry, i.definition), e.stepName, StepChild);
    if step.Some? {
      ChildTells(registry, step.value, Tale(OfChild, e.stepName, h), e.stepName, Lookup(i.children, e.stepName), e);
    }
    if Apply(registry, i, e).Ok? {
      var j := Apply(registry, i, e).value;
      StepEventHeader(h, i, e, j);
      hide ApplyChild, Told, StepContinues;
      TellsOn(OfChild, h, i, e, j);
    }
  }

  lemma TimerFollows(registry: Registry, h: seq<HistoryEvent>, i: Instance, e: HistoryEvent)
    requires Tells(h, i) && ValidEvent(e) && (e.kind.TimerScheduled? || e.kind.TimerFired?) && Follows(h, e)
    ensures Apply(registry, i, e).Ok? <==> StepContinues(registry, h, e)
    ensures Apply(registry, i, e).Ok? ==> Tells(h + [e], Apply(registry, i, e).value)
  {
    hide Apply, Follows, Fits, Terminal, CompletesAction, ValidEvent, Tale, Numbered, TimerTold, TimerContinues,
         TimerNext;
    FollowsFits(h, i, e);
    AcceptTimer(registry, i, e);
    TaleSnoc(OfTimer, e.stepName, h, e);
    NumberlessTale(e);
    assert Told(OfTimer, e.stepName, h, i);
    var step := FindStep(CurrentSteps(registry, i.definition), e.stepName, StepTimer);
    if step.Some? {
      TimerTells(step.value, i.status, Tale(OfTimer, e.stepName, h), e.stepName, Lookup(i.timers, e.stepName), e);
    }
    if Apply(registry, i, e).Ok? {
      var j := Apply(registry, i, e).value;
      StepEventHeader(h, i, e, j);
      hide ApplyTimer, Told, StepContinues;
      TellsOn(OfTimer, h, i, e, j);
    }
  }

  lemma SignalFollows(registry: Registry, h: seq<HistoryEvent>, i: Instance, e: HistoryEvent)
    requires Tells(h, i) && ValidEvent(e) && e.kind.SignalReceived? && Follows(h, e)
    ensures Apply(registry, i, e).Ok? <==> StepContinues(registry, h, e)
    ensures Apply(registry, i, e).Ok? ==> Tells(h + [e], Apply(registry, i, e).value)
  {
    hide Apply, Follows, Fits, Terminal, CompletesAction, ValidEvent, Tale, Numbered, SignalTold, SignalContinues,
         SignalNext, SignalStep;
    FollowsFits(h, i, e);
    AcceptSignal(registry, i, e);
    TaleSnoc(OfSignal, e.stepName, h, e);
    NumberlessTale(e);
    assert Told(OfSignal, e.stepName, h, i);
    var step := SignalStep(CurrentSteps(registry, i.definition), e.stepName);
    if step.Some? {
      SignalTells(step.value, i.status, Tale(OfSignal, e.stepName, h), e.stepName, Lookup(i.signals, e.stepName), e);
    }
    if Apply(registry, i, e).Ok? {
      var j := Apply(registry, i, e).value;
      StepEventHeader(h, i, e, j);
      hide ApplySignal, Told, StepContinues;
      TellsOn(OfSignal, h, i, e, j);
    }
  }

  lemma RaceFollows(registry: Registry, h: seq<HistoryEvent>, i: Instance, e: HistoryEvent)
    requires Tells(h, i) && ValidEvent(e) && e.kind.RaceWon? && Follows(h, e)
    ensures Apply(registry, i, e).Ok? <==> StepContinues(registry, h, e)
    ensures Apply(registry, i, e).Ok? ==> Tells(h + [e], Apply(registry, i, e).value)
  {
    hide Apply, Follows, Fits, Terminal, CompletesAction, ValidEvent, Tale, Numbered;
    FollowsFits(h, i, e);
    AcceptRace(registry, i, e);
    TaleSnoc(OfRace, e.stepName, h, e);
    NumberlessTale(e);
    assert Told(OfRace, e.stepName, h, i) && Told(OfSignal, e.data.AsName(), h, i);
    if Apply(registry, i, e).Ok? {
      var j := Apply(registry, i, e).value;
      StepEventHeader(h, i, e, j);
      hide ApplyRace, Told, StepContinues;
      TellsOn(OfRace, h, i, e, j);
    }
  }

  lemma NumberlessTale(e: HistoryEvent)
    requires e.kind.RaceWon? || e.kind.SignalReceived? || e.kind.TimerScheduled? || e.kind.TimerFired?
    ensures forall tale: seq<HistoryEvent> :: Numbered(tale + [e])
  {
  }

  lemma AuditFollows(registry: Registry, h: seq<HistoryEvent>, i: Instance, e: HistoryEvent)
    requires Tells(h, i) && ValidEvent(e) && e.kind.OperatorCommandRecorded? && Follows(h, e)
    ensures Apply(registry, i, e).Ok? <==> StepContinues(registry, h, e)
    ensures Apply(registry, i, e).Ok? ==> Tells(h + [e], Apply(registry, i, e).value)
  {
    hide Apply, Follows, Fits, Terminal, ValidEvent, DecodeOperatorAudit, Told, Tale, Numbered;
    FollowsFits(h, i, e);
    NoActionIsAudit(h, e);
    ValidAudit(e);
    AuditDecodes(e);
    AcceptAudit(registry, i, e);
    if Apply(registry, i, e).Ok? {
      var j := Apply(registry, i, e).value;
      hide StepContinues, CompletesAction;
      AuditHeader(h, i, e, j);
      TellsAll(h, i, e, j);
    }
  }

  lemma AuditHeader(h: seq<HistoryEvent>, i: Instance, e: HistoryEvent, j: Instance)
    requires HeaderTold(h, i) && e.kind.OperatorCommandRecorded? && ValidEvent(e) && Follows(h, e)
    requires e.data.AuditDocument? && !e.data.action.NoAction?
    requires j == Advanced(i, e).(pendingOperator := e.data.action, operatorActions := j.operatorActions)
    ensures HeaderTold(h + [e], j)
  {
    hide ValidEvent, HeaderTold, CompletesAction;
    StepHeader(h, i, e, j);
  }

  lemma NoActionIsAudit(h: seq<HistoryEvent>, e: HistoryEvent)
    requires h != [] && e.kind.OperatorCommandRecorded? && Follows(h, e)
    ensures ActionDue(h) == NoAction
  {
  }

  lemma ValidAudit(e: HistoryEvent)
    requires ValidEvent(e) && e.kind.OperatorCommandRecorded?
    ensures DecodeOperatorAudit(e.data).Some?
  {
    hide DecodeOperatorAudit, ValidIdent;
  }

  /** What one more lifecycle event adds to what the events say. */
  lemma SaidSnoc(h: seq<HistoryEvent>, e: HistoryEvent)
    requires h != [] && e.kind.Lifecycle?
    ensures Last(h + [e]) == e && (h + [e])[0] == h[0]
    ensures StatusSaid(h + [e]) == if e.kind.change.DefinitionMigrated? then StatusSaid(h) else StatusMeant(e.kind.change)
    ensures InputSaid(h + [e]) == if IsStart(e.kind) || IsMigration(e.kind) then e.data else InputSaid(h)
    ensures PinnedDefinition(h + [e]) == if IsMigration(e.kind) then e.definition else PinnedDefinition(h)
  {
    hide StatusMeant;
    assert (h + [e])[..|h|] == h;
  }

  lemma LifecycleAccepted(registry: Registry, h: seq<HistoryEvent>, i: Instance, e: HistoryEvent)
    requires HeaderTold(h, i) && e.kind.Lifecycle?
    ensures ApplyLifecycle(registry, i, e.kind.change, e).Ok? <==> LifecycleContinues(registry, h, e)
  {
    hide Resolves, StatusSaid, InputSaid, ResultSaid, SuccessorSaid, ActionDue, PinnedDefinition, Terminal,
         IsTerminalEvent;
    match e.kind.change
    case InstanceStarted =>
    case InstancePaused =>
    case InstanceResumed =>
    case CancellationRequested =>
    case InstanceCancelled =>
    case InstanceCompleted =>
    case InstanceFailed =>
    case InstanceTerminated =>
    case DefinitionMigrated =>
    case ContinuedAsNew =>
  }

  /** The instance after a lifecycle event, from the event's meaning. */
  function Moved(i: Instance, e: HistoryEvent): Instance
    requires e.kind.Lifecycle?
  {
    if IsMigration(e.kind) then i.(definition := e.definition, input := e.data)
    else
      var j := i.(status := StatusMeant(e.kind.change));
      if IsContinuation(e.kind) then j.(successorID := e.successorID)
      else if IsTerminalEvent(e.kind) then j.(result := e.data)
      else j
  }

  lemma EndMoves(registry: Registry, i: Instance, e: HistoryEvent)
    requires IsTerminalEvent(e.kind) && ApplyLifecycle(registry, i, e.kind.change, e).Ok?
    ensures ApplyLifecycle(registry, i, e.kind.change, e).value == Moved(i, e)
  {
    hide CheckReference, ApplyMigration;
  }

  lemma TurnMoves(registry: Registry, i: Instance, e: HistoryEvent)
    requires e.kind.Lifecycle? && !IsTerminalEvent(e.kind) && ApplyLifecycle(registry, i, e.kind.change, e).Ok?
    ensures ApplyLifecycle(registry, i, e.kind.change, e).value == Moved(i, e) && !IsStart(e.kind)
  {
    hide CheckReference;
  }

  lemma LifecycleMoves(registry: Registry, i: Instance, e: HistoryEvent)
    requires e.kind.Lifecycle? && ApplyLifecycle(registry, i, e.kind.change, e).Ok?
    ensures ApplyLifecycle(registry, i, e.kind.change, e).value == Moved(i, e) && !IsStart(e.kind)
  {
    hide ApplyLifecycle, Moved;
    if IsTerminalEvent(e.kind) {
      EndMoves(registry, i, e);
    } else {
      TurnMoves(registry, i, e);
    }
  }

  lemma MigratedHeader(h: seq<HistoryEvent>, i: Instance, e: HistoryEvent)
    requires HeaderTold(h, i) && IsMigration(e.kind) && Follows(h, e)
    ensures HeaderTold(h + [e], Advanced(Moved(i, e), e))
  {
    hide CompletesAction, StatusSaid, InputSaid, PinnedDefinition, StatusMeant, Terminal;
    SaidSnoc(h, e);
    assert !IsTerminalEvent(e.kind);
  }

  lemma EndedHeader(h: seq<HistoryEvent>, i: Instance, e: HistoryEvent)
    requires HeaderTold(h, i) && IsTerminalEvent(e.kind) && Follows(h, e)
    ensures HeaderTold(h + [e], Advanced(Moved(i, e), e))
  {
    hide CompletesAction, StatusSaid, InputSaid, PinnedDefinition, StatusMeant, Terminal;
    SaidSnoc(h, e);
    MeantTerminal(e.kind.change);
  }

  lemma TurnedHeader(h: seq<HistoryEvent>, i: Instance, e: HistoryEvent)
    requires HeaderTold(h, i) && e.kind.Lifecycle? && !IsTerminalEvent(e.kind) && !IsMigration(e.kind) && Follows(h, e)
    requires !IsStart(e.kind)
    ensures HeaderTold(h + [e], Advanced(Moved(i, e), e))
  {
    hide CompletesAction, StatusSaid, InputSaid, PinnedDefinition, StatusMeant, Terminal;
    SaidSnoc(h, e);
    MeantTerminal(e.kind.change);
  }

  lemma LifecycleHeader(h: seq<HistoryEvent>, i: Instance, e: HistoryEvent)
    requires HeaderTold(h, i) && e.kind.Lifecycle? && Follows(h, e) && !IsStart(e.kind)
    ensures HeaderTold(h + [e], Advanced(Moved(i, e), e))
  {
    hide HeaderTold, Follows, Moved;
    if IsMigration(e.kind) {
      MigratedHeader(h, i, e);
    } else if IsTerminalEvent(e.kind) {
      EndedHeader(h, i, e);
    } else {
      TurnedHeader(h, i, e);
    }
  }

  lemma MeantTerminal(change: LifecycleKind)
    ensures Terminal(StatusMeant(change)) <==> IsTerminalChange(change)
  {
  }

  lemma LifecycleFollows(registry: Registry, h: seq<HistoryEvent>, i: Instance, e: HistoryEvent)
    requires Tells(h, i) && ValidEvent(e) && e.kind.Lifecycle? && Follows(h, e)
    ensures Apply(registry, i, e).Ok? <==> LifecycleContinues(registry, h, e)
    ensures Apply(registry, i, e).Ok? ==> Tells(h + [e], Apply(registry, i, e).value)
  {
    hide Apply, Follows, Fits, Terminal, ValidEvent, Told, Tale, Numbered, ApplyLifecycle, LifecycleContinues,
         HeaderTold, Moved;
    FollowsFits(h, i, e);
    AcceptLifecycle(registry, i, e);
    LifecycleAccepted(registry, h, i, e);
    if Apply(registry, i, e).Ok? {
      LifecycleMoves(registry, i, e);
      LifecycleHeader(h, i, e);
      LifecycleFrame(registry, i, e);
      TellsAll(h, i, e, Apply(registry, i, e).value);
    }
  }

  lemma OneMore(registry: Registry, h: seq<HistoryEvent>, i: Instance, e: HistoryEvent)
    requires Tells(h, i) && ValidEvent(e)
    ensures Apply(registry, i, e).Ok? <==> Continues(registry, h, e)
    ensures Apply(registry, i, e).Ok? ==> Tells(h + [e], Apply(registry, i, e).value)
  {
    hide Apply, Follows, ValidEvent, Told, Tale, Numbered, StepContinues, LifecycleContinues, Fits, Terminal;
    FollowsFits(h, i, e);
    if !Follows(h, e) {
      RefusesUnfit(registry, i, e);
    } else {
      hide HeaderTold;
      match e.kind
      case Lifecycle(_) => LifecycleFollows(registry, h, i, e);
      case Activity(_) => ActivityFollows(registry, h, i, e);
      case Compensation(_) => CompensationFollows(registry, h, i, e);
      case CompensationManuallyResolved => CompensationFollows(registry, h, i, e);
      case ChildStart(_) => ChildFollows(registry, h, i, e);
      case ChildCompleted => ChildFollows(registry, h, i, e);
      case ChildFailed => ChildFollows(registry, h, i, e);
      case TimerScheduled => TimerFollows(registry, h, i, e);
      case TimerFired => TimerFollows(registry, h, i, e);
      case SignalReceived => SignalFollows(registry, h, i, e);
      case RaceWon => RaceFollows(registry, h, i, e);
      case OperatorCommandRecorded => AuditFollows(registry, h, i, e);
    }
  }

  lemma FirstEvent(registry: Registry, e: HistoryEvent)
    requires ValidEvent(e)
    ensures Apply(registry, BLANK, e).Ok? <==> Begins(registry, e)
    ensures Apply(registry, BLANK, e).Ok? ==> Tells([e], Apply(registry, BLANK, e).value)
  {
    hide ValidEvent;
    assert [e][..0] == [];
    forall topic: Topic ensures !Concerns(topic, e.kind) || !Begins(registry, e) {
    }
    assert forall topic: Topic, name :: Begins(registry, e) ==> Tale(topic, name, [e]) == [];
  }

  // --- whole histories ----------------------------------------------------

  /**
   * The law of histories: replay accepts exactly the well-told ones, and then
   * every field of the instance is what the events say.
   */
  lemma {:induction false} ReplayAcceptsExactly(registry: Registry, h: seq<HistoryEvent>)
    requires h != [] && ValidEvents(h)
    ensures ApplyAll(registry, BLANK, h).Ok? <==> WellTold(registry, h)
    ensures ApplyAll(registry, BLANK, h).Ok? ==> Tells(h, ApplyAll(registry, BLANK, h).value)
  {
    hide Apply, ValidEvent, Continues, Tells, Begins;
    var init, last := h[..|h| - 1], h[|h| - 1];
    assert h == init + [last];
    if init == [] {
      assert ApplyAll(registry, BLANK, init) == Ok(BLANK);
      FirstEvent(registry, last);
    } else {
      ReplayAcceptsExactly(registry, init);
      if ApplyAll(registry, BLANK, init).Ok? {
        OneMore(registry, init, ApplyAll(registry, BLANK, init).value, last);
      }
    }
  }

  /** A whole history replays exactly when it is well told and leaves no audit without its action. */
  lemma ReplaysExactly(registry: Registry, h: seq<HistoryEvent>)
    requires ValidEvents(h)
    ensures ReplayHistory(registry, h).Ok? <==> WellTold(registry, h) && !Last(h).kind.OperatorCommandRecorded?
    ensures ReplayHistory(registry, h).Ok? ==> Tells(h, ReplayHistory(registry, h).value)
  {
    hide ValidEvents, WellTold, Told, Numbered, ApplyAll;
    if h != [] {
      ReplayAcceptsExactly(registry, h);
    } else {
      assert !WellTold(registry, h) by {
        NothingIsTold(registry);
      }
    }
  }

  lemma NothingIsTold(registry: Registry)
    ensures !WellTold(registry, [])
  {
  }

  /** Each way of ending, and each way of standing still, is told by events of that very kind. */
  lemma StatusIsTold(registry: Registry, h: seq<HistoryEvent>) returns (k: nat)
    requires h != [] && ValidEvents(h) && ApplyAll(registry, BLANK, h).Ok?
    ensures var i, last := ApplyAll(registry, BLANK, h).value, h[|h| - 1].kind;
            && (i.status.Completed? <==> last == Lifecycle(InstanceCompleted))
            && (i.status.Failed? <==> last == Lifecycle(InstanceFailed))
            && (i.status.Cancelled? <==> last == Lifecycle(InstanceCancelled))
            && (i.status.Terminated? <==> last == Lifecycle(InstanceTerminated))
            && (i.status.Continued? <==> last == Lifecycle(ContinuedAsNew))
    ensures k < |h| && ChangesStatus(h[k].kind) && forall j | k < j < |h| :: !ChangesStatus(h[j].kind)
    ensures var i, change := ApplyAll(registry, BLANK, h).value, h[k].kind.change;
            && (i.status.Paused? <==> change == InstancePaused)
            && (i.status.Running? <==> change == InstanceStarted || change == InstanceResumed)
            && (i.status.Cancelling? <==> change == CancellationRequested)
  {
    hide ApplyAll, ValidEvent, Told, Tale, Numbered;
    ReplayAcceptsExactly(registry, h);
    AcceptedShape(registry, h);
    TerminalIsLast(registry, h);
    k := LastChange(h);
  }

  lemma {:induction false} LastChange(h: seq<HistoryEvent>) returns (k: nat)
    requires h != [] && IsStart(h[0].kind)
    ensures k < |h| && ChangesStatus(h[k].kind) && forall j | k < j < |h| :: !ChangesStatus(h[j].kind)
    ensures StatusSaid(h) == StatusMeant(h[k].kind.change)
  {
    k := |h| - 1;
    if !ChangesStatus(Last(h).kind) {
      k := LastChange(h[..|h| - 1]);
    }
  }

  /** The input is the start's data or, once migrated, the latest migration's. */
  lemma InputIsTold(registry: Registry, h: seq<HistoryEvent>) returns (k: nat)
    requires h != [] && ValidEvents(h) && ApplyAll(registry, BLANK, h).Ok?
    ensures k < |h| && ApplyAll(registry, BLANK, h).value.input == h[k].data
    ensures k == 0 || IsMigration(h[k].kind)
    ensures forall j | k < j < |h| :: !IsMigration(h[j].kind)
  {
    hide ApplyAll, ValidEvent, Told, Tale, Numbered;
    ReplayAcceptsExactly(registry, h);
    AcceptedShape(registry, h);
    k := LastInput(h);
  }

  lemma {:induction false} LastInput(h: seq<HistoryEvent>) returns (k: nat)
    requires h != [] && IsStart(h[0].kind) && forall j | 0 < j < |h| :: !IsStart(h[j].kind)
    ensures k < |h| && InputSaid(h) == h[k].data && (k == 0 || IsMigration(h[k].kind))
    ensures forall j | k < j < |h| :: !IsMigration(h[j].kind)
  {
    k := |h| - 1;
    if !IsMigration(Last(h).kind) && |h| > 1 {
      k := LastInput(h[..|h| - 1]);
    }
  }
}
