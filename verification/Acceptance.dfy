/**
 * When replay accepts one more event, family by family, and the exact state it
 * then yields: the converse of the frames.
 */
module Acceptance {
  import opened Basics
  import opened Definitions
  import opened Events
  import opened Replay
  import opened ReplayFrames

  /** An instance as `ReplayHistory` returns it. */
  predicate Settled(registry: Registry, i: Instance) {
    0 < i.sequence < MAX_UINT64 && i.pendingOperator.NoAction? && Resolves(registry, i.definition)
  }

  /** Position, owner, time and pending command all admit the event. */
  predicate Fits(i: Instance, e: HistoryEvent) {
    && 0 < i.sequence && e.instanceID == i.id && e.sequence == Next64(i.sequence) && e.occurredAt >= i.updatedAt
    && (i.pendingOperator.NoAction? || CompletesAction(i.pendingOperator, e.kind))
  }

  /** Header bookkeeping of one accepted event. */
  function Advanced(i: Instance, e: HistoryEvent): Instance {
    i.(sequence := e.sequence, updatedAt := e.occurredAt, pendingOperator := NoAction)
  }

  lemma ReplayedIsSettled(registry: Registry, h: seq<HistoryEvent>)
    requires ValidEvents(h) && ReplayHistory(registry, h).Ok? && |h| < MAX_UINT64
    ensures Settled(registry, ReplayHistory(registry, h).value)
  {
    hide ApplyAll, ValidEvent, Resolves;
    AcceptedShape(registry, h);
    AcceptedDefinition(registry, h);
  }

  /** The pinned definition's content is what replay consults. */
  lemma PinnedSteps(registry: Registry, i: Instance, d: Definition)
    requires Resolves(registry, i.definition) && d.Reference() == i.definition
    ensures CurrentSteps(registry, i.definition) == d.steps
    ensures DefinitionKey(d.name, d.version) in registry.definitions
    ensures registry.definitions[DefinitionKey(d.name, d.version)] == d
  {
  }

  lemma AcceptsDispatch(registry: Registry, i: Instance, e: HistoryEvent)
    requires Fits(i, e)
    ensures Apply(registry, i, e).Ok? <==> !Terminal(i.status) && Dispatch(registry, i, e).Ok?
    ensures Apply(registry, i, e).Ok? ==>
              var j := Dispatch(registry, i, e).value;
              Apply(registry, i, e).value ==
              j.(sequence := e.sequence, updatedAt := e.occurredAt,
                 pendingOperator := if !i.pendingOperator.NoAction? then NoAction else j.pendingOperator)
  {
    hide Dispatch, CompletesAction, Terminal, Next64;
  }

  lemma AcceptActivity(registry: Registry, i: Instance, e: HistoryEvent)
    requires Fits(i, e) && e.kind.Activity?
    ensures var next := ApplyActivity(registry, i, e.kind.phase, e);
            Apply(registry, i, e).Ok? <==> !Terminal(i.status) && next.Some?
    ensures Apply(registry, i, e).Ok? ==>
              Apply(registry, i, e).value ==
              Advanced(i, e).(activities := i.activities[e.stepName := ApplyActivity(registry, i, e.kind.phase, e).value])
  {
    hide Apply, ApplyActivity, Terminal, CompletesAction, Next64;
    AcceptsDispatch(registry, i, e);
  }

  lemma AcceptCompensation(registry: Registry, i: Instance, e: HistoryEvent)
    requires Fits(i, e) && IsCompensationEvent(e.kind)
    ensures var next := ApplyCompensation(registry, i, e);
            Apply(registry, i, e).Ok? <==> !Terminal(i.status) && next.Some?
    ensures Apply(registry, i, e).Ok? ==>
              Apply(registry, i, e).value ==
              Advanced(i, e).(compensations := i.compensations[e.stepName := ApplyCompensation(registry, i, e).value])
  {
    hide Apply, ApplyCompensation, Terminal, CompletesAction, Next64;
    AcceptsDispatch(registry, i, e);
  }

  lemma AcceptChild(registry: Registry, i: Instance, e: HistoryEvent)
    requires Fits(i, e) && IsChildEvent(e.kind)
    ensures var next := ApplyChild(registry, i, e);
            Apply(registry, i, e).Ok? <==> !Terminal(i.status) && next.Some?
    ensures Apply(registry, i, e).Ok? ==>
              Apply(registry, i, e).value ==
              Advanced(i, e).(children := i.children[e.stepName := ApplyChild(registry, i, e).value])
  {
    hide Apply, ApplyChild, Terminal, CompletesAction, Next64;
    AcceptsDispatch(registry, i, e);
  }

  lemma AcceptTimer(registry: Registry, i: Instance, e: HistoryEvent)
    requires Fits(i, e) && (e.kind.TimerScheduled? || e.kind.TimerFired?)
    ensures var next := ApplyTimer(registry, i, e);
            Apply(registry, i, e).Ok? <==> !Terminal(i.status) && next.Some?
    ensures Apply(registry, i, e).Ok? ==>
              Apply(registry, i, e).value ==
              Advanced(i, e).(timers := i.timers[e.stepName := ApplyTimer(registry, i, e).value])
  {
    hide Apply, ApplyTimer, Terminal, CompletesAction, Next64;
    AcceptsDispatch(registry, i, e);
  }

  lemma AcceptSignal(registry: Registry, i: Instance, e: HistoryEvent)
    requires Fits(i, e) && e.kind.SignalReceived?
    ensures var next := ApplySignal(registry, i, e);
            Apply(registry, i, e).Ok? <==> !Terminal(i.status) && next.Some?
    ensures Apply(registry, i, e).Ok? ==>
              Apply(registry, i, e).value ==
              Advanced(i, e).(signals := i.signals[e.stepName := ApplySignal(registry, i, e).value])
  {
    hide Apply, ApplySignal, Terminal, CompletesAction, Next64;
    AcceptsDispatch(registry, i, e);
  }

  lemma AcceptRace(registry: Registry, i: Instance, e: HistoryEvent)
    requires Fits(i, e) && e.kind.RaceWon?
    ensures var next := ApplyRace(registry, i, e);
            Apply(registry, i, e).Ok? <==> !Terminal(i.status) && next.Some?
    ensures Apply(registry, i, e).Ok? ==>
              Apply(registry, i, e).value ==
              Advanced(i, e).(races := i.races[e.stepName := ApplyRace(registry, i, e).value])
  {
    hide Apply, ApplyRace, Terminal, CompletesAction, Next64;
    AcceptsDispatch(registry, i, e);
  }

  lemma AcceptLifecycle(registry: Registry, i: Instance, e: HistoryEvent)
    requires Fits(i, e) && e.kind.Lifecycle?
    ensures var next := ApplyLifecycle(registry, i, e.kind.change, e);
            Apply(registry, i, e).Ok? <==> !Terminal(i.status) && next.Ok?
    ensures Apply(registry, i, e).Ok? ==>
              Apply(registry, i, e).value == Advanced(ApplyLifecycle(registry, i, e.kind.change, e).value, e)
  {
    hide Apply, ApplyLifecycle, Terminal, CompletesAction, Next64;
    AcceptsDispatch(registry, i, e);
    if ApplyLifecycle(registry, i, e.kind.change, e).Ok? {
      LifecycleFrame(registry, i, e);
    }
  }

  /** An audit is accepted by any live instance and leaves its action pending. */
  lemma AcceptAudit(registry: Registry, i: Instance, e: HistoryEvent)
    requires Fits(i, e) && e.kind.OperatorCommandRecorded? && i.pendingOperator.NoAction?
    requires DecodeOperatorAudit(e.data).Some?
    ensures Apply(registry, i, e).Ok? <==> !Terminal(i.status)
    ensures Apply(registry, i, e).Ok? ==>
              Apply(registry, i, e).value ==
              Advanced(i, e).(pendingOperator := e.data.action, operatorActions := i.operatorActions + [RecordOf(e)])
  {
    hide Apply, Terminal, CompletesAction, Next64, DecodeOperatorAudit;
    AcceptsDispatch(registry, i, e);
    AuditDecodes(e);
  }

  lemma AuditDecodes(e: HistoryEvent)
    ensures DecodeOperatorAudit(e.data).Some? ==>
              DecodeOperatorAudit(e.data) == Some(e.data) && e.data.AuditDocument? && !e.data.action.NoAction?
  {
  }
}
