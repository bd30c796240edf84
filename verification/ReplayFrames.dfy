/** What one accepted event can and cannot change. */
module ReplayFrames {
  import opened Basics
  import opened Definitions
  import opened Events
  import opened Replay

  predicate ChangesStatus(kind: EventKind) {
    kind.Lifecycle? && !kind.change.DefinitionMigrated?
  }

  /** The checks every event passes, and what accepting it does beyond dispatching it. */
  lemma ApplyDispatches(registry: Registry, i: Instance, e: HistoryEvent)
    requires i.sequence != 0 && Apply(registry, i, e).Ok?
    ensures e.instanceID == i.id && e.sequence == Next64(i.sequence) && e.occurredAt >= i.updatedAt
    ensures !Terminal(i.status)
    ensures i.pendingOperator != NoAction ==> CompletesAction(i.pendingOperator, e.kind)
    ensures Dispatch(registry, i, e).Ok?
    ensures var k := Dispatch(registry, i, e).value;
            Apply(registry, i, e).value ==
            k.(sequence := e.sequence, updatedAt := e.occurredAt,
               pendingOperator := if i.pendingOperator != NoAction then NoAction else k.pendingOperator)
  {
    hide Dispatch, CompletesAction, Next64, Terminal;
  }

  /** A lifecycle event touches nothing but the header. */
  lemma LifecycleFrame(registry: Registry, i: Instance, e: HistoryEvent)
    requires e.kind.Lifecycle? && ApplyLifecycle(registry, i, e.kind.change, e).Ok?
    ensures var j := ApplyLifecycle(registry, i, e.kind.change, e).value;
            j == i.(status := j.status, result := j.result, definition := j.definition, input := j.input,
                    successorID := j.successorID)
  {
    hide CheckReference;
    match e.kind.change
    case InstancePaused =>
    case InstanceResumed =>
    case CancellationRequested =>
    case InstanceCancelled =>
    case InstanceCompleted =>
    case InstanceFailed =>
    case InstanceTerminated =>
    case DefinitionMigrated =>
    case ContinuedAsNew =>
  }

  lemma LifecycleStatus(registry: Registry, i: Instance, e: HistoryEvent)
    requires e.kind.Lifecycle? && ApplyLifecycle(registry, i, e.kind.change, e).Ok? && !Terminal(i.status)
    ensures var j := ApplyLifecycle(registry, i, e.kind.change, e).value;
            && (Terminal(j.status) <==> IsTerminalEvent(e.kind))
            && (!ChangesStatus(e.kind) ==> j.status == i.status)
            && !IsStart(e.kind)
  {
    hide CheckReference;
    match e.kind.change
    case InstancePaused =>
    case InstanceResumed =>
    case CancellationRequested =>
    case InstanceCancelled =>
    case InstanceCompleted =>
    case InstanceFailed =>
    case InstanceTerminated =>
    case DefinitionMigrated =>
    case ContinuedAsNew =>
  }

  lemma LifecyclePin(registry: Registry, i: Instance, e: HistoryEvent)
    requires e.kind.Lifecycle? && ApplyLifecycle(registry, i, e.kind.change, e).Ok?
    ensures var j := ApplyLifecycle(registry, i, e.kind.change, e).value;
            && j.definition == (if IsMigration(e.kind) then e.definition else i.definition)
            && (IsMigration(e.kind) ==> Resolves(registry, e.definition))
  {
    hide Resolves;
    match e.kind.change
    case InstancePaused =>
    case InstanceResumed =>
    case CancellationRequested =>
    case InstanceCancelled =>
    case InstanceCompleted =>
    case InstanceFailed =>
    case InstanceTerminated =>
    case DefinitionMigrated =>
    case ContinuedAsNew =>
  }

  /** A step event leaves the header alone. */
  lemma StepKeepsStatus(registry: Registry, i: Instance, e: HistoryEvent)
    requires !e.kind.Lifecycle? && Dispatch(registry, i, e).Ok?
    ensures Dispatch(registry, i, e).value.status == i.status
    ensures Dispatch(registry, i, e).value.definition == i.definition
  {
    hide ApplyActivity, ApplyTimer, ApplySignal, ApplyRace, ApplyChild, ApplyCompensation, ApplyOperator,
         ApplyLifecycle;
  }

  lemma StepKeepsIdentity(registry: Registry, i: Instance, e: HistoryEvent)
    requires !e.kind.Lifecycle? && Dispatch(registry, i, e).Ok?
    ensures Dispatch(registry, i, e).value.id == i.id
    ensures Dispatch(registry, i, e).value.startedAt == i.startedAt
  {
    hide ApplyActivity, ApplyTimer, ApplySignal, ApplyRace, ApplyChild, ApplyCompensation, ApplyOperator,
         ApplyLifecycle;
  }

  lemma DispatchLifecycle(registry: Registry, i: Instance, e: HistoryEvent)
    requires Dispatch(registry, i, e).Ok? && !Terminal(i.status)
    ensures var j := Dispatch(registry, i, e).value;
            && j.id == i.id && j.startedAt == i.startedAt
            && (Terminal(j.status) <==> IsTerminalEvent(e.kind))
            && (!ChangesStatus(e.kind) ==> j.status == i.status)
            && j.definition == (if IsMigration(e.kind) then e.definition else i.definition)
            && (IsMigration(e.kind) ==> Resolves(registry, e.definition))
            && !IsStart(e.kind)
  {
    if e.kind.Lifecycle? {
      hide ApplyLifecycle, Resolves, Terminal, IsTerminalChange;
      LifecycleFrame(registry, i, e);
      LifecycleStatus(registry, i, e);
      LifecyclePin(registry, i, e);
    } else {
      hide Dispatch, Resolves, Terminal;
      StepKeepsStatus(registry, i, e);
      StepKeepsIdentity(registry, i, e);
    }
  }

  lemma DispatchOperator(registry: Registry, i: Instance, e: HistoryEvent)
    requires e.kind.OperatorCommandRecorded? && Dispatch(registry, i, e).Ok?
    ensures var j := Dispatch(registry, i, e).value;
            && i.pendingOperator == NoAction && DecodeOperatorAudit(e.data).Some?
            && j.pendingOperator == e.data.action && j.operatorActions == i.operatorActions + [RecordOf(e)]
  {
  }

  lemma OthersKeepAudit(registry: Registry, i: Instance, e: HistoryEvent)
    requires !e.kind.OperatorCommandRecorded? && Dispatch(registry, i, e).Ok?
    ensures Dispatch(registry, i, e).value.operatorActions == i.operatorActions
    ensures Dispatch(registry, i, e).value.pendingOperator == i.pendingOperator
  {
    hide ApplyActivity, ApplyTimer, ApplySignal, ApplyRace, ApplyChild, ApplyCompensation, ApplyOperator,
         ApplyLifecycle;
    if e.kind.Lifecycle? {
      LifecycleFrame(registry, i, e);
    }
  }

  /** The audit record an operator event leaves. */
  function RecordOf(e: HistoryEvent): OperatorRecord
    requires DecodeOperatorAudit(e.data).Some?
  {
    OperatorRecord(e.idempotencyKey, e.data.action, e.data.actor, e.data.reason, e.occurredAt)
  }

  /** Header fields after an accepted later event. */
  lemma ApplyHeader(registry: Registry, i: Instance, e: HistoryEvent)
    requires i.sequence != 0 && Apply(registry, i, e).Ok?
    ensures var j := Apply(registry, i, e).value;
            && j.id == i.id && e.instanceID == i.id && j.startedAt == i.startedAt
            && j.sequence == e.sequence == Next64(i.sequence)
            && j.updatedAt == e.occurredAt && e.occurredAt >= i.updatedAt
            && !Terminal(i.status) && !IsStart(e.kind)
            && (Terminal(j.status) <==> IsTerminalEvent(e.kind))
            && (!ChangesStatus(e.kind) ==> j.status == i.status)
            && j.definition == (if IsMigration(e.kind) then e.definition else i.definition)
            && (IsMigration(e.kind) ==> Resolves(registry, e.definition))
  {
    hide Apply, Dispatch, Resolves;
    ApplyDispatches(registry, i, e);
    DispatchLifecycle(registry, i, e);
  }

  /** The pending operator action and the audit trail after an accepted later event. */
  lemma ApplyAudit(registry: Registry, i: Instance, e: HistoryEvent)
    requires i.sequence != 0 && Apply(registry, i, e).Ok?
    ensures var j := Apply(registry, i, e).value;
            && (i.pendingOperator != NoAction ==>
                  CompletesAction(i.pendingOperator, e.kind) && j.pendingOperator == NoAction)
            && (e.kind.OperatorCommandRecorded? ==>
                  i.pendingOperator == NoAction && DecodeOperatorAudit(e.data).Some? &&
                  j.pendingOperator == e.data.action && j.operatorActions == i.operatorActions + [RecordOf(e)])
            && (!e.kind.OperatorCommandRecorded? ==>
                  j.pendingOperator == NoAction && j.operatorActions == i.operatorActions)
  {
    hide Apply, Dispatch, DecodeOperatorAudit;
    ApplyDispatches(registry, i, e);
    if e.kind.OperatorCommandRecorded? {
      DispatchOperator(registry, i, e);
    } else {
      OthersKeepAudit(registry, i, e);
    }
  }

  /** An accepted event changes at most the one activity it names. */
  lemma ApplyActivities(registry: Registry, i: Instance, e: HistoryEvent)
    requires i.sequence != 0 && Apply(registry, i, e).Ok?
    ensures if e.kind.Activity? then
              ApplyActivity(registry, i, e.kind.phase, e).Some? &&
              Apply(registry, i, e).value.activities == i.activities[e.stepName := ApplyActivity(registry, i, e.kind.phase, e).value]
            else Apply(registry, i, e).value.activities == i.activities
  {
    hide Apply, ApplyActivity, ApplyTimer, ApplySignal, ApplyRace, ApplyChild, ApplyCompensation, ApplyOperator,
         ApplyLifecycle, Terminal, CompletesAction, Next64;
    ApplyDispatches(registry, i, e);
    match e.kind
    case Lifecycle(_) => LifecycleFrame(registry, i, e);
    case Activity(_) =>
    case Compensation(_) =>
    case CompensationManuallyResolved =>
    case ChildStart(_) =>
    case ChildCompleted =>
    case ChildFailed =>
    case TimerScheduled =>
    case TimerFired =>
    case SignalReceived =>
    case RaceWon =>
    case OperatorCommandRecorded =>
  }

  /** An accepted event changes at most the one compensation it names. */
  lemma ApplyCompensations(registry: Registry, i: Instance, e: HistoryEvent)
    requires i.sequence != 0 && Apply(registry, i, e).Ok?
    ensures if IsCompensationEvent(e.kind) then
              ApplyCompensation(registry, i, e).Some? &&
              Apply(registry, i, e).value.compensations == i.compensations[e.stepName := ApplyCompensation(registry, i, e).value]
            else Apply(registry, i, e).value.compensations == i.compensations
  {
    hide Apply, ApplyActivity, ApplyTimer, ApplySignal, ApplyRace, ApplyChild, ApplyCompensation, ApplyOperator,
         ApplyLifecycle, Terminal, CompletesAction, Next64;
    ApplyDispatches(registry, i, e);
    match e.kind
    case Lifecycle(_) => LifecycleFrame(registry, i, e);
    case Activity(_) =>
    case Compensation(_) =>
    case CompensationManuallyResolved =>
    case ChildStart(_) =>
    case ChildCompleted =>
    case ChildFailed =>
    case TimerScheduled =>
    case TimerFired =>
    case SignalReceived =>
    case RaceWon =>
    case OperatorCommandRecorded =>
  }

  /** An accepted event changes at most the one child it names. */
  lemma ApplyChildren(registry: Registry, i: Instance, e: HistoryEvent)
    requires i.sequence != 0 && Apply(registry, i, e).Ok?
    ensures if IsChildEvent(e.kind) then
              ApplyChild(registry, i, e).Some? &&
              Apply(registry, i, e).value.children == i.children[e.stepName := ApplyChild(registry, i, e).value]
            else Apply(registry, i, e).value.children == i.children
  {
    hide Apply, ApplyActivity, ApplyTimer, ApplySignal, ApplyRace, ApplyChild, ApplyCompensation, ApplyOperator,
         ApplyLifecycle, Terminal, CompletesAction, Next64;
    ApplyDispatches(registry, i, e);
    match e.kind
    case Lifecycle(_) => LifecycleFrame(registry, i, e);
    case Activity(_) =>
    case Compensation(_) =>
    case CompensationManuallyResolved =>
    case ChildStart(_) =>
    case ChildCompleted =>
    case ChildFailed =>
    case TimerScheduled =>
    case TimerFired =>
    case SignalReceived =>
    case RaceWon =>
    case OperatorCommandRecorded =>
  }

  /** An accepted event changes at most the one timer it names. */
  lemma ApplyTimers(registry: Registry, i: Instance, e: HistoryEvent)
    requires i.sequence != 0 && Apply(registry, i, e).Ok?
    ensures if e.kind.TimerScheduled? || e.kind.TimerFired? then
              ApplyTimer(registry, i, e).Some? &&
              Apply(registry, i, e).value.timers == i.timers[e.stepName := ApplyTimer(registry, i, e).value]
            else Apply(registry, i, e).value.timers == i.timers
  {
    hide Apply, ApplyActivity, ApplyTimer, ApplySignal, ApplyRace, ApplyChild, ApplyCompensation, ApplyOperator,
         ApplyLifecycle, Terminal, CompletesAction, Next64;
    ApplyDispatches(registry, i, e);
    match e.kind
    case Lifecycle(_) => LifecycleFrame(registry, i, e);
    case Activity(_) =>
    case Compensation(_) =>
    case CompensationManuallyResolved =>
    case ChildStart(_) =>
    case ChildCompleted =>
    case ChildFailed =>
    case TimerScheduled =>
    case TimerFired =>
    case SignalReceived =>
    case RaceWon =>
    case OperatorCommandRecorded =>
  }

  /** An accepted event changes at most the one signal it names. */
  lemma ApplySignals(registry: Registry, i: Instance, e: HistoryEvent)
    requires i.sequence != 0 && Apply(registry, i, e).Ok?
    ensures if e.kind.SignalReceived? then
              ApplySignal(registry, i, e).Some? &&
              Apply(registry, i, e).value.signals == i.signals[e.stepName := ApplySignal(registry, i, e).value]
            else Apply(registry, i, e).value.signals == i.signals
  {
    hide Apply, ApplyActivity, ApplyTimer, ApplySignal, ApplyRace, ApplyChild, ApplyCompensation, ApplyOperator,
         ApplyLifecycle, Terminal, CompletesAction, Next64;
    ApplyDispatches(registry, i, e);
    match e.kind
    case Lifecycle(_) => LifecycleFrame(registry, i, e);
    case Activity(_) =>
    case Compensation(_) =>
    case CompensationManuallyResolved =>
    case ChildStart(_) =>
    case ChildCompleted =>
    case ChildFailed =>
    case TimerScheduled =>
    case TimerFired =>
    case SignalReceived =>
    case RaceWon =>
    case OperatorCommandRecorded =>
  }

  /** An accepted event changes at most the one race it names. */
  lemma ApplyRaces(registry: Registry, i: Instance, e: HistoryEvent)
    requires i.sequence != 0 && Apply(registry, i, e).Ok?
    ensures if e.kind.RaceWon? then
              ApplyRace(registry, i, e).Some? &&
              Apply(registry, i, e).value.races == i.races[e.stepName := ApplyRace(registry, i, e).value]
            else Apply(registry, i, e).value.races == i.races
  {
    hide Apply, ApplyActivity, ApplyTimer, ApplySignal, ApplyRace, ApplyChild, ApplyCompensation, ApplyOperator,
         ApplyLifecycle, Terminal, CompletesAction, Next64;
    ApplyDispatches(registry, i, e);
    match e.kind
    case Lifecycle(_) => LifecycleFrame(registry, i, e);
    case Activity(_) =>
    case Compensation(_) =>
    case CompensationManuallyResolved =>
    case ChildStart(_) =>
    case ChildCompleted =>
    case ChildFailed =>
    case TimerScheduled =>
    case TimerFired =>
    case SignalReceived =>
    case RaceWon =>
    case OperatorCommandRecorded =>
  }

  /** Every accepted history of valid events is contiguous from one, in time order. */
  lemma {:induction false} AcceptedShape(registry: Registry, h: seq<HistoryEvent>)
    requires h != [] && ValidEvents(h) && ApplyAll(registry, BLANK, h).Ok?
    ensures var i := ApplyAll(registry, BLANK, h).value;
            && i.sequence == |h| && i.updatedAt == h[|h| - 1].occurredAt && i.startedAt == h[0].occurredAt
            && i.id == h[0].instanceID
    ensures IsStart(h[0].kind) && Resolves(registry, h[0].definition)
    ensures forall k | 0 <= k < |h| :: h[k].sequence == k + 1 && h[k].instanceID == h[0].instanceID
    ensures forall k | 0 < k < |h| :: h[k - 1].occurredAt <= h[k].occurredAt && !IsStart(h[k].kind)
  {
    hide Apply, ValidEvent, Resolves, IsTerminalEvent, ChangesStatus;
    var init, last := h[..|h| - 1], h[|h| - 1];
    assert h == init + [last];
    if init == [] {
      assert ApplyAll(registry, BLANK, init) == Ok(BLANK);
      StartHeader(registry, last);
    } else {
      AcceptedShape(registry, init);
      ApplyHeader(registry, ApplyAll(registry, BLANK, init).value, last);
      PositiveSequence(last);
      assert forall k | 0 <= k < |init| :: h[k] == init[k];
    }
  }

  /** Only the last event of an accepted history can be terminal, and then the status is. */
  lemma {:induction false} TerminalIsLast(registry: Registry, h: seq<HistoryEvent>)
    requires h != [] && ValidEvents(h) && ApplyAll(registry, BLANK, h).Ok?
    ensures forall k | 0 <= k < |h| - 1 :: !IsTerminalEvent(h[k].kind)
    ensures Terminal(ApplyAll(registry, BLANK, h).value.status) <==> IsTerminalEvent(h[|h| - 1].kind)
  {
    hide Apply, ValidEvent;
    var init, last := h[..|h| - 1], h[|h| - 1];
    assert h == init + [last];
    if init == [] {
      assert ApplyAll(registry, BLANK, init) == Ok(BLANK);
      StartHeader(registry, last);
    } else {
      TerminalIsLast(registry, init);
      AcceptedShape(registry, init);
      ApplyHeader(registry, ApplyAll(registry, BLANK, init).value, last);
    }
  }

  /** Times never decrease across an accepted history. */
  lemma {:induction false} TimesNeverDecrease(h: seq<HistoryEvent>, a: nat, b: nat)
    requires forall k | 0 < k < |h| :: h[k - 1].occurredAt <= h[k].occurredAt
    requires a <= b < |h|
    ensures h[a].occurredAt <= h[b].occurredAt
  {
    if a < b {
      TimesNeverDecrease(h, a, b - 1);
    }
  }

  lemma StartHeader(registry: Registry, e: HistoryEvent)
    requires Apply(registry, BLANK, e).Ok?
    ensures IsStart(e.kind) && e.sequence == 1 && Resolves(registry, e.definition)
    ensures Apply(registry, BLANK, e).value ==
            BLANK.(id := e.instanceID, definition := e.definition, status := Running, sequence := 1,
                   startedAt := e.occurredAt, updatedAt := e.occurredAt, input := e.data)
  {
  }

  /** The definition a history pins: the start's, replaced by each migration. */
  function PinnedDefinition(h: seq<HistoryEvent>): DefinitionRef
    requires h != []
  {
    var last := h[|h| - 1];
    if |h| == 1 then last.definition
    else if IsMigration(last.kind) then last.definition
    else PinnedDefinition(h[..|h| - 1])
  }

  lemma {:induction false} AcceptedDefinition(registry: Registry, h: seq<HistoryEvent>)
    requires h != [] && ValidEvents(h) && ApplyAll(registry, BLANK, h).Ok?
    ensures ApplyAll(registry, BLANK, h).value.definition == PinnedDefinition(h)
    ensures Resolves(registry, PinnedDefinition(h))
  {
    hide Apply, ValidEvent;
    var init, last := h[..|h| - 1], h[|h| - 1];
    assert h == init + [last];
    if init == [] {
      assert ApplyAll(registry, BLANK, init) == Ok(BLANK);
      StartHeader(registry, last);
    } else {
      AcceptedDefinition(registry, init);
      AcceptedShape(registry, init);
      ApplyHeader(registry, ApplyAll(registry, BLANK, init).value, last);
    }
  }

  predicate MigrationFree(h: seq<HistoryEvent>) {
    forall k | 0 <= k < |h| :: !IsMigration(h[k].kind)
  }

  lemma {:induction false} MigrationFreePin(h: seq<HistoryEvent>)
    requires h != [] && MigrationFree(h)
    ensures PinnedDefinition(h) == h[0].definition
  {
    if |h| > 1 {
      MigrationFreePin(h[..|h| - 1]);
    }
  }

  /** A prefix of an accepted history is accepted. */
  lemma AcceptedPrefix(registry: Registry, h: seq<HistoryEvent>, k: nat)
    requires k <= |h| && ApplyAll(registry, BLANK, h).Ok?
    ensures ApplyAll(registry, BLANK, h[..k]).Ok?
    ensures ApplyAll(registry, ApplyAll(registry, BLANK, h[..k]).value, h[k..]) == ApplyAll(registry, BLANK, h)
  {
    assert h == h[..k] + h[k..];
    ApplyAllConcat(registry, BLANK, h[..k], h[k..]);
  }
}
