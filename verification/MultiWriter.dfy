/**
 * Many writers on one store. Each plans on an instance it replayed from some
 * earlier, possibly stale, reading; the commit fence lets only plans made on
 * the current history through, so every committed history replays.
 */
module MultiWriter {
  import opened Basics
  import opened Definitions
  import opened Events
  import opened Replay
  import opened Transitions
  import opened Planners
  import opened Backoff
  import opened Acceptance
  import opened PlannerSoundness
  import opened OperatorSoundness
  import opened Store
  import opened StoreInvariants
  import opened StoreRuns
  import StoreTheorems
  import O = Orchestration
  import OrchestrationRuns
  import Inspection
  import F = ReplayFrames

  /** Every planner, with its request. */
  datatype Proposal =
    | ScheduleActivity(schedule: ScheduleSpec)
    | StartActivity(start: StartSpec)
    | ReportActivity(report: OutcomeSpec)
    | RetryActivity(retry: RetrySpec)
    | ScheduleCompensation(schedule: ScheduleSpec)
    | StartCompensation(start: StartSpec)
    | ReportCompensation(report: OutcomeSpec)
    | RetryCompensation(retry: RetrySpec)
    | ScheduleChild(child: ChildScheduleSpec)
    | StartChild(start: StartSpec)
    | ReportChildStart(childReport: ChildOutcomeSpec)
    | RetryChildStart(retry: RetrySpec)
    | ReportChild(childResult: ChildResultSpec)
    | ScheduleTimer(timer: TimerScheduleSpec)
    | FireTimer(fire: TimerFireSpec)
    | AcceptSignal(signal: SignalSpec)
    | OperateLifecycle(command: Command, instance: Instance, action: OperatorAction)
    | OperateRetry(command: Command, retry: RetrySpec)
    | OperateCompensation(command: Command, schedule: ScheduleSpec)
    | OperateResolution(command: Command, resolution: ResolutionSpec)
    | OperateApproval(command: Command, approval: ApprovalSpec)
    | DecideNext(decision: O.DecisionSpec)

  function TransitionOf(p: Proposal): Option<Transition> {
    match p
    case ScheduleActivity(s) => NewActivitySchedule(s)
    case StartActivity(s) => NewActivityAttemptStart(s)
    case ReportActivity(s) => NewActivityAttemptOutcome(s)
    case RetryActivity(s) => NewActivityRetry(s)
    case ScheduleCompensation(s) => NewCompensationSchedule(s)
    case StartCompensation(s) => NewCompensationAttemptStart(s)
    case ReportCompensation(s) => NewCompensationAttemptOutcome(s)
    case RetryCompensation(s) => NewCompensationRetry(s)
    case ScheduleChild(s) => NewChildSchedule(s)
    case StartChild(s) => NewChildStartAttempt(s)
    case ReportChildStart(s) => NewChildStartAttemptOutcome(s)
    case RetryChildStart(s) => NewChildStartRetry(s)
    case ReportChild(s) => NewChildOutcome(s)
    case ScheduleTimer(s) => NewTimerSchedule(s)
    case FireTimer(s) => NewTimerFire(s)
    case AcceptSignal(s) => NewSignalAcceptance(s)
    case OperateLifecycle(c, i, action) => NewOperatorLifecycleCommand(c, i, action)
    case OperateRetry(c, s) => NewOperatorActivityRetry(c, s)
    case OperateCompensation(c, s) => NewOperatorCompensation(c, s)
    case OperateResolution(c, s) => NewOperatorCompensationResolution(c, s)
    case OperateApproval(c, s) => NewOperatorApproval(c, s)
    case DecideNext(s) => (match O.Decide(s) case Err(_) => None case Ok(d) => OrchestrationRuns.PlanOf(d))
  }

  /** The request was made for this instance; cursor-only requests fit any they address. */
  predicate MadeFor(p: Proposal, i: Instance) {
    match p
    case ScheduleActivity(s) => s.instance == i
    case StartActivity(s) => s.instance == i
    case ReportActivity(s) => s.instance == i
    case RetryActivity(s) => s.instance == i
    case ScheduleCompensation(s) => s.instance == i
    case StartCompensation(s) => s.instance == i
    case ReportCompensation(s) => s.instance == i
    case RetryCompensation(s) => s.instance == i
    case ScheduleChild(s) => s.instance == i
    case StartChild(s) => s.instance == i
    case ReportChildStart(s) => s.instance == i
    case RetryChildStart(s) => s.instance == i
    case ReportChild(s) => s.instance == i
    case ScheduleTimer(_) | FireTimer(_) | AcceptSignal(_) =>
      TransitionOf(p).Some? ==> Addresses(TransitionOf(p).value, i)
    case OperateLifecycle(_, j, _) => j == i
    case OperateRetry(_, s) => s.instance == i
    case OperateCompensation(_, s) => s.instance == i
    case OperateResolution(_, s) => s.instance == i
    case OperateApproval(_, s) => s.instance == i
    case DecideNext(s) => s.instance == i
  }

  /** What a planner leaves to its caller: nothing for most, one check of the replayed instance for the others. */
  predicate CallerGuard(p: Proposal, i: Instance) {
    match p
    case ReportActivity(_) | ReportCompensation(_) | OperateResolution(_, _) => !Terminal(i.status)
    case RetryActivity(_) | OperateRetry(_, _) => i.status.Running?
    case ReportChildStart(s) => FindStep(s.definition.steps, s.stepName, StepChild).Some?
    case ScheduleTimer(s) => i.status.Running? && s.stepName !in i.timers && s.at >= i.updatedAt
    case FireTimer(s) =>
      var name := s.lease.work.payload.AsName();
      && i.status.Running? && name in i.timers && !i.timers[name].fired
      && s.at >= i.timers[name].dueAt && s.at >= i.updatedAt
    case AcceptSignal(s) => (i.status.Running? || i.status.Paused?) && s.stepName !in i.signals && s.at >= i.updatedAt
    case OperateApproval(_, s) => (i.status.Running? || i.status.Paused?) && s.stepName !in i.signals
    case DecideNext(s) => s.at >= i.updatedAt
    case _ => true
  }

  /**
   * The planners, all together: a plan made for a replayed instance replays on
   * it exactly when its caller guard holds.
   */
  lemma PlansReplayExactly(registry: Registry, i: Instance, p: Proposal)
    requires ValidRegistry(registry) && Settled(registry, i) && MadeFor(p, i) && TransitionOf(p).Some?
    ensures ApplyAll(registry, i, TransitionOf(p).value.events).Ok? <==> CallerGuard(p, i)
  {
    hide *;
    match p {
      case ScheduleActivity(s) => ActivityPlans(registry, i, p);
      case StartActivity(s) => ActivityPlans(registry, i, p);
      case ReportActivity(s) => ActivityPlans(registry, i, p);
      case RetryActivity(s) => ActivityPlans(registry, i, p);
      case ScheduleCompensation(s) => CompensationPlans(registry, i, p);
      case StartCompensation(s) => CompensationPlans(registry, i, p);
      case ReportCompensation(s) => CompensationPlans(registry, i, p);
      case RetryCompensation(s) => CompensationPlans(registry, i, p);
      case ScheduleChild(s) => ChildPlans(registry, i, p);
      case StartChild(s) => ChildPlans(registry, i, p);
      case ReportChildStart(s) => ChildPlans(registry, i, p);
      case RetryChildStart(s) => ChildPlans(registry, i, p);
      case ReportChild(s) => ChildPlans(registry, i, p);
      case ScheduleTimer(s) => WaitPlans(registry, i, p);
      case FireTimer(s) => WaitPlans(registry, i, p);
      case AcceptSignal(s) => WaitPlans(registry, i, p);
      case OperateLifecycle(c, _, action) => OperatorPlans(registry, i, p);
      case OperateRetry(c, s) => OperatorPlans(registry, i, p);
      case OperateCompensation(c, s) => OperatorPlans(registry, i, p);
      case OperateResolution(c, s) => OperatorPlans(registry, i, p);
      case OperateApproval(c, s) => OperatorPlans(registry, i, p);
      case DecideNext(s) => DecisionPlans(registry, i, p);
    }
  }

  lemma ActivityPlans(registry: Registry, i: Instance, p: Proposal)
    requires Settled(registry, i) && MadeFor(p, i) && TransitionOf(p).Some?
    requires p.ScheduleActivity? || p.StartActivity? || p.ReportActivity? || p.RetryActivity?
    ensures ApplyAll(registry, i, TransitionOf(p).value.events).Ok? <==> CallerGuard(p, i)
  {
    hide ApplyAll, NewActivitySchedule, NewActivityAttemptStart, NewActivityAttemptOutcome, NewActivityRetry, Settled,
         Terminal;
    match p {
      case ScheduleActivity(s) => ActivityScheduleSound(registry, s);
      case StartActivity(s) => ActivityStartSound(registry, s);
      case ReportActivity(s) => ActivityOutcomeExactly(registry, s);
      case RetryActivity(s) => ActivityRetryExactly(registry, s);
    }
  }

  lemma CompensationPlans(registry: Registry, i: Instance, p: Proposal)
    requires Settled(registry, i) && MadeFor(p, i) && TransitionOf(p).Some?
    requires p.ScheduleCompensation? || p.StartCompensation? || p.ReportCompensation? || p.RetryCompensation?
    ensures ApplyAll(registry, i, TransitionOf(p).value.events).Ok? <==> CallerGuard(p, i)
  {
    hide ApplyAll, NewCompensationSchedule, NewCompensationAttemptStart, NewCompensationAttemptOutcome,
         NewCompensationRetry, Settled, Terminal;
    match p {
      case ScheduleCompensation(s) => CompensationScheduleSound(registry, s);
      case StartCompensation(s) => CompensationStartSound(registry, s);
      case ReportCompensation(s) => CompensationOutcomeExactly(registry, s);
      case RetryCompensation(s) => CompensationRetrySound(registry, s);
    }
  }

  lemma ChildPlans(registry: Registry, i: Instance, p: Proposal)
    requires ValidRegistry(registry) && Settled(registry, i) && MadeFor(p, i) && TransitionOf(p).Some?
    requires p.ScheduleChild? || p.StartChild? || p.ReportChildStart? || p.RetryChildStart? || p.ReportChild?
    ensures ApplyAll(registry, i, TransitionOf(p).value.events).Ok? <==> CallerGuard(p, i)
  {
    hide ApplyAll, NewChildSchedule, NewChildStartAttempt, NewChildStartAttemptOutcome, NewChildStartRetry,
         NewChildOutcome, Settled, ValidRegistry;
    match p {
      case ScheduleChild(s) => ChildScheduleSound(registry, s);
      case StartChild(s) => ChildStartSound(registry, s);
      case ReportChildStart(s) => ChildStartOutcomeExactly(registry, s);
      case RetryChildStart(s) => ChildStartRetrySound(registry, s);
      case ReportChild(s) => ChildOutcomeSound(registry, s);
    }
  }

  lemma WaitPlans(registry: Registry, i: Instance, p: Proposal)
    requires Settled(registry, i) && MadeFor(p, i) && TransitionOf(p).Some?
    requires p.ScheduleTimer? || p.FireTimer? || p.AcceptSignal?
    ensures ApplyAll(registry, i, TransitionOf(p).value.events).Ok? <==> CallerGuard(p, i)
  {
    hide ApplyAll, NewTimerSchedule, NewTimerFire, NewSignalAcceptance, Settled, Addresses;
    match p {
      case ScheduleTimer(s) => TimerScheduleExactly(registry, i, s);
      case FireTimer(s) => TimerFireExactly(registry, i, s);
      case AcceptSignal(s) => SignalAcceptanceExactly(registry, i, s);
    }
  }

  lemma OperatorPlans(registry: Registry, i: Instance, p: Proposal)
    requires ValidRegistry(registry) && Settled(registry, i) && MadeFor(p, i) && TransitionOf(p).Some?
    requires p.OperateLifecycle? || p.OperateRetry? || p.OperateCompensation? || p.OperateResolution? || p.OperateApproval?
    ensures ApplyAll(registry, i, TransitionOf(p).value.events).Ok? <==> CallerGuard(p, i)
  {
    hide ApplyAll, NewOperatorLifecycleCommand, NewOperatorActivityRetry, NewOperatorCompensation,
         NewOperatorCompensationResolution, NewOperatorApproval, Settled, ValidRegistry, Terminal;
    match p {
      case OperateLifecycle(c, _, action) => LifecycleCommandSound(registry, c, i, action);
      case OperateRetry(c, s) => OperatorRetryExactly(registry, c, s);
      case OperateCompensation(c, s) => OperatorCompensationSound(registry, c, s);
      case OperateResolution(c, s) => ResolutionExactly(registry, c, s);
      case OperateApproval(c, s) => ApprovalExactly(registry, c, s);
    }
  }

  lemma DecisionPlans(registry: Registry, i: Instance, p: Proposal)
    requires ValidRegistry(registry) && Settled(registry, i) && MadeFor(p, i) && TransitionOf(p).Some? && p.DecideNext?
    ensures ApplyAll(registry, i, TransitionOf(p).value.events).Ok? <==> CallerGuard(p, i)
  {
    hide ApplyAll, O.DecideFrom, ValidDefinition;
    PinnedSteps(registry, i, p.decision.definition);
    OrchestrationRuns.DecisionsReplayExactly(registry, p.decision);
  }

  // --- views and commits --------------------------------------------------

  /** Every stored history replays. */
  predicate AllReplay(registry: Registry, db: Tables) {
    forall id | id in db.instances :: ReplayHistory(registry, HistoryOf(db, id)).Ok?
  }

  /** The instance a writer gets by reading one history and replaying it. */
  predicate IsView(registry: Registry, db: Tables, id: Ident, view: Instance) {
    id in db.instances && ReplayHistory(registry, HistoryOf(db, id)) == Ok(view)
  }

  lemma ViewFacts(registry: Registry, db: Tables, id: Ident, view: Instance)
    requires StoreOk(db) && IsView(registry, db, id, view)
    ensures Settled(registry, view) && view.sequence == db.instances[id].sequence && view.id == id
    ensures view.definition == db.instances[id].definition
  {
    hide HistoryKeyed, HistoryFull, RowsAgree, PlansStored, Tiled, WorkOk, WorkAnchored, ResolutionsOk, ApplyAll,
         Settled, ValidEvents;
    StoredInstance(db, id);
    F.AcceptedShape(registry, HistoryOf(db, id));
    ReplayedIsSettled(registry, HistoryOf(db, id));
    StoreTheorems.RowAgreesWithReplay(db, registry, id);
  }

  lemma StoredInstance(db: Tables, id: Ident)
    requires StoreOk(db) && id in db.instances
    ensures ValidEvents(HistoryOf(db, id)) && 0 < |HistoryOf(db, id)| < MAX_UINT64
    ensures HistoryOf(db, id)[0].instanceID == id
  {
    hide RowsAgree, PlansStored, Tiled, WorkOk, WorkAnchored, ResolutionsOk, ValidEvent;
    StoreTheorems.StoredHistoryValid(db, id);
    assert EventKey(id, 1) in db.history;
  }

  /** With equal length, a later state of the same instance has the very same history. */
  lemma SameLengthSameHistory(seen: Tables, db: Tables, id: Ident)
    requires StoreOk(seen) && Extends(seen, db) && id in seen.instances && id in db.instances
    requires db.instances[id].sequence == seen.instances[id].sequence
    ensures HistoryOf(db, id) == HistoryOf(seen, id)
  {
    hide HistoryKeyed, RowsAgree, PlansStored, Tiled, WorkOk, WorkAnchored, ResolutionsOk, WorkExtends;
    assert Full(seen.history, id, seen.instances[id].sequence);
    SamePrefix(seen.history, db.history, id, seen.instances[id].sequence);
  }

  /**
   * The fence makes stale views harmless: if a plan that addresses a view read
   * at any earlier state is applied now, that view is the current instance.
   */
  lemma AppliedMeansCurrent(registry: Registry, seen: Tables, db: Tables, view: Instance, t: Transition)
    requires StoreOk(seen) && StoreOk(db) && Extends(seen, db) && IsView(registry, seen, t.instanceID, view)
    requires Addresses(t, view) && Applicable(db, t)
    ensures IsView(registry, db, t.instanceID, view)
  {
    hide StoreOk, ReplayHistory, StageFailure, StageOutcomeOf, WorkExtends, ValidTransition, Settled, ValidEvents;
    ViewFacts(registry, seen, t.instanceID, view);
    SettledPosition(registry, view);
    HistoryParts(db);
    hide HistoryKeyed, HistoryFull, RowsAgree, PlansStored, Tiled;
    StagedShape(db, t);
    SameLengthSameHistory(seen, db, t.instanceID);
  }

  lemma SettledPosition(registry: Registry, i: Instance)
    requires Settled(registry, i)
    ensures i.sequence > 0
  {
  }

  /** Committing a plan made on the current instance appends its events to the history that gave it. */
  lemma AppliedHistory(registry: Registry, db: Tables, view: Instance, t: Transition)
    requires StoreOk(db) && IsView(registry, db, t.instanceID, view) && Applicable(db, t)
    ensures t.events != [] && t.instanceID in Commit(db, t).instances
    ensures HistoryOf(Commit(db, t), t.instanceID) == HistoryOf(db, t.instanceID) + t.events
    ensures ApplyAll(registry, BLANK, HistoryOf(Commit(db, t), t.instanceID)) == ApplyAll(registry, view, t.events)
  {
    hide ApplyAll, HistoryOf, StageFailure, ValidTransition, ValidEvents, StagedInstance, WorkOk, WorkAnchored,
         ResolutionsOk;
    HistoryParts(db);
    hide HistoryKeyed, HistoryFull, RowsAgree, PlansStored, Tiled;
    StagedShape(db, t);
    StagedHistory(db, t);
    ApplyAllConcat(registry, BLANK, HistoryOf(db, t.instanceID), t.events);
  }

  /** Applying a plan whose events replay on the current instance yields its planner's intended instance. */
  lemma AppliedReplays(registry: Registry, db: Tables, view: Instance, t: Transition)
    requires StoreOk(db) && AllReplay(registry, db) && IsView(registry, db, t.instanceID, view) && Applicable(db, t)
    requires ApplyAll(registry, view, t.events).Ok? && ApplyAll(registry, view, t.events).value.pendingOperator.NoAction?
    ensures t.events != [] && AllReplay(registry, Commit(db, t))
    ensures IsView(registry, Commit(db, t), t.instanceID, ApplyAll(registry, view, t.events).value)
  {
    hide ApplyAll, HistoryOf, StageFailure, ValidTransition, ValidEvents, StagedInstance, WorkOk, WorkAnchored,
         ResolutionsOk;
    HistoryParts(db);
    hide HistoryKeyed, HistoryFull, RowsAgree, PlansStored, Tiled;
    StagedShape(db, t);
    AppliedHistory(registry, db, view, t);
    forall id | id in db.instances && id != t.instanceID
      ensures ReplayHistory(registry, HistoryOf(Staged(db, t), id)).Ok?
    {
      OtherHistories(db, t, id);
    }
  }

  /** What a first plan does to the stored histories. */
  lemma CreatedHistory(db: Tables, t: Transition)
    requires StoreOk(db) && Applicable(db, t) && t.expectedSequence == 0
    ensures t.events != [] && StageFailure(db, t).None?
    ensures HistoryOf(Staged(db, t), t.instanceID) == t.events && t.instanceID !in db.instances
    ensures Commit(db, t) == Staged(db, t) && Staged(db, t).instances.Keys == db.instances.Keys + {t.instanceID}
    ensures forall id | id in db.instances && id != t.instanceID :: HistoryOf(Staged(db, t), id) == HistoryOf(db, id)
  {
    hide StageFailure, ValidTransition, ValidEvents, StagedInstance, WorkOk, WorkAnchored, ResolutionsOk, HistoryUpTo,
         WithEvents, WithWork;
    HistoryParts(db);
    hide HistoryKeyed, HistoryFull, RowsAgree, PlansStored, Tiled;
    StagedShape(db, t);
    StagedHistory(db, t);
    assert HistoryOf(db, t.instanceID) == [];
    hide HistoryOf;
    forall id | id in db.instances && id != t.instanceID
      ensures HistoryOf(Staged(db, t), id) == HistoryOf(db, id)
    {
      OtherHistories(db, t, id);
    }
  }

  /** A first plan creates an instance whose history is the plan. */
  lemma CreatedReplays(registry: Registry, db: Tables, t: Transition)
    requires StoreOk(db) && AllReplay(registry, db) && Applicable(db, t) && t.expectedSequence == 0
    requires ReplayHistory(registry, t.events).Ok?
    ensures t.events != [] && AllReplay(registry, Commit(db, t))
  {
    hide StoreOk, Applicable, ReplayHistory, HistoryOf, StageFailure, Staged, Commit;
    CreatedHistory(db, t);
  }

  /** Plans of planners never leave an audit dangling. */
  lemma {:induction false} NothingPending(registry: Registry, i: Instance, events: seq<HistoryEvent>)
    requires i.sequence != 0 && events != [] && ValidEvents(events) && ApplyAll(registry, i, events).Ok?
    requires !events[|events| - 1].kind.OperatorCommandRecorded?
    ensures ApplyAll(registry, i, events).value.pendingOperator.NoAction?
  {
    hide Apply, ValidEvent;
    var init, last := events[..|events| - 1], events[|events| - 1];
    OrchestrationRuns.BatchKeeps(registry, i, init);
    F.ApplyAudit(registry, ApplyAll(registry, i, init).value, last);
  }

  /** A plan as its writer may commit it: valid, addressed to the writer's instance, ending in no audit. */
  predicate Proposable(t: Transition, i: Instance) {
    && Addresses(t, i) && ValidOp(DoCommit(t)) && t.events != []
    && !t.events[|t.events| - 1].kind.OperatorCommandRecorded?
  }

  lemma PlanProposable(p: Proposal, i: Instance)
    requires TransitionOf(p).Some? && MadeFor(p, i)
    ensures Proposable(TransitionOf(p).value, i)
  {
    hide ValidTransition, ValidEvent, ValidLease, ValidWork, DecodeOperatorAudit, O.DecideFrom;
    if p.DecideNext? {
      hide OrchestrationRuns.IsTurnPlan;
      OrchestrationRuns.DecisionPlan(p.decision);
      OrchestrationRuns.DecisionCommittable(p.decision, TransitionOf(p).value);
    } else if p.OperateLifecycle? || p.OperateRetry? || p.OperateCompensation? {
      OperatorProposable(p, i);
    } else if p.OperateResolution? || p.OperateApproval? {
      EvidenceProposable(p, i);
    } else if p.ScheduleTimer? || p.FireTimer? || p.AcceptSignal? {
      WaitProposable(p, i);
    } else {
      StepProposable(p, i);
    }
  }

  lemma WaitProposable(p: Proposal, i: Instance)
    requires TransitionOf(p).Some? && MadeFor(p, i) && (p.ScheduleTimer? || p.FireTimer? || p.AcceptSignal?)
    ensures Proposable(TransitionOf(p).value, i)
  {
    hide ValidTransition, ValidEvent, ValidLease, ValidWork, O.Decide, FindStep;
  }

  lemma StepProposable(p: Proposal, i: Instance)
    requires TransitionOf(p).Some? && MadeFor(p, i)
    requires !p.OperateLifecycle? && !p.OperateRetry? && !p.OperateCompensation? && !p.OperateResolution?
    requires !p.OperateApproval? && !p.ScheduleTimer? && !p.FireTimer? && !p.AcceptSignal? && !p.DecideNext?
    ensures Proposable(TransitionOf(p).value, i)
  {
    hide ValidTransition, ValidEvent, ValidLease, ValidWork, O.Decide, FindStep, RetryDelay, InsideLease, ValidOutcome;
  }

  lemma OperatorProposable(p: Proposal, i: Instance)
    requires TransitionOf(p).Some? && MadeFor(p, i)
    requires p.OperateLifecycle? || p.OperateRetry? || p.OperateCompensation?
    ensures Proposable(TransitionOf(p).value, i)
  {
    hide ValidTransition, ValidEvent, ValidLease, ValidWork, DecodeOperatorAudit, O.Decide;
  }

  lemma EvidenceProposable(p: Proposal, i: Instance)
    requires TransitionOf(p).Some? && MadeFor(p, i) && (p.OperateResolution? || p.OperateApproval?)
    ensures Proposable(TransitionOf(p).value, i)
  {
    hide ValidTransition, ValidEvent, ValidLease, ValidWork, DecodeOperatorAudit, O.Decide;
  }

  /**
   * The caller guards are exactly what the stored history needs: once a plan
   * made on the current instance is committed, the history still replays if
   * and only if the plan's guard held.
   */
  lemma CommittedReplaysExactly(registry: Registry, db: Tables, view: Instance, p: Proposal)
    requires ValidRegistry(registry) && StoreOk(db) && TransitionOf(p).Some? && MadeFor(p, view)
    requires IsView(registry, db, TransitionOf(p).value.instanceID, view) && Applicable(db, TransitionOf(p).value)
    ensures var t := TransitionOf(p).value;
            t.events != [] &&
            (ReplayHistory(registry, HistoryOf(Commit(db, t), t.instanceID)).Ok? <==> CallerGuard(p, view)) &&
            (CallerGuard(p, view) <==> ApplyAll(registry, BLANK, HistoryOf(Commit(db, t), t.instanceID)).Ok?)
  {
    hide ValidRegistry, StoreOk, TransitionOf, IsView, MadeFor, CallerGuard, ApplyAll, StageOutcomeOf, Staged, Settled,
         HistoryOf, Addresses, ValidTransition, ValidEvents, Commit;
    var t := TransitionOf(p).value;
    ViewFacts(registry, db, t.instanceID, view);
    SettledPosition(registry, view);
    PlansReplayExactly(registry, view, p);
    PlanProposable(p, view);
    AppliedHistory(registry, db, view, t);
    if CallerGuard(p, view) {
      NothingPending(registry, view, t.events);
    }
  }

  /** A commit without its guard is never undone: whatever follows, the history replays in no later state. */
  lemma UnguardedBreaksForever(registry: Registry, db: Tables, view: Instance, p: Proposal, later: Tables)
    requires ValidRegistry(registry) && StoreOk(db) && TransitionOf(p).Some? && MadeFor(p, view)
    requires IsView(registry, db, TransitionOf(p).value.instanceID, view) && Applicable(db, TransitionOf(p).value)
    requires !CallerGuard(p, view)
    requires TransitionOf(p).value.events != [] && StoreOk(later) && Extends(Commit(db, TransitionOf(p).value), later)
    ensures TransitionOf(p).value.instanceID in later.instances
    ensures ReplayHistory(registry, HistoryOf(later, TransitionOf(p).value.instanceID)).Err?
  {
    hide ValidRegistry, StoreOk, TransitionOf, IsView, MadeFor, CallerGuard, ApplyAll, StageOutcomeOf, Staged, Settled,
         HistoryOf, ValidTransition, ValidEvents, Commit, Extends;
    var t := TransitionOf(p).value;
    CommittedReplaysExactly(registry, db, view, p);
    AppliedHistory(registry, db, view, t);
    PlanProposable(p, view);
    CommitKeepsAndExtends(db, t);
    var broken := HistoryOf(Commit(db, t), t.instanceID);
    Inspection.HistoryGrows(Commit(db, t), later, t.instanceID);
    var h := HistoryOf(later, t.instanceID);
    assert h[..|broken|] == broken;
    if ApplyAll(registry, BLANK, h).Ok? {
      F.AcceptedPrefix(registry, h, |broken|);
    }
  }

  // --- runs ---------------------------------------------------------------

  /**
   * One step of a run: a writer commits a plan made on the instance it read at
   * state `seen`, a caller creates an instance, or work is claimed, renewed,
   * finished or resolved. A commit may also be lost before it is durable.
   */
  datatype Step =
    | WritePlan(proposal: Proposal, seen: nat, view: Instance, durable: bool)
    | Create(t: Transition, durable: bool)
    | OnWork(op: Op)

  predicate Follows(registry: Registry, states: seq<Tables>, k: nat, step: Step)
    requires k + 1 < |states|
  {
    match step
    case WritePlan(p, seen, view, durable) =>
      && seen <= k && TransitionOf(p).Some?
      && ValidOp(DoCommit(TransitionOf(p).value))
      && IsView(registry, states[seen], TransitionOf(p).value.instanceID, view)
      && MadeFor(p, view) && CallerGuard(p, view)
      && states[k + 1] == if durable then Commit(states[k], TransitionOf(p).value) else states[k]
    case Create(t, durable) =>
      && ValidOp(DoCommit(t)) && t.expectedSequence == 0 && ReplayHistory(registry, t.events).Ok?
      && states[k + 1] == if durable then Commit(states[k], t) else states[k]
    case OnWork(op) => ValidOp(op) && !op.DoCommit? && states[k + 1] == Perform(states[k], op)
  }

  predicate Trace(registry: Registry, states: seq<Tables>, steps: seq<Step>) {
    && |states| == |steps| + 1 && states[0] == NO_TABLES
    && forall k | 0 <= k < |steps| :: Follows(registry, states, k, steps[k])
  }

  lemma WorkStepKeepsReplay(registry: Registry, db: Tables, op: Op)
    requires AllReplay(registry, db) && ValidOp(op) && !op.DoCommit?
    ensures AllReplay(registry, Perform(db, op))
  {
    hide ReplayHistory, ValidResolution, ClaimFits, Chosen, FenceResolved, HistoryUpTo;
    assert Perform(db, op).instances == db.instances && Perform(db, op).history == db.history;
    forall id | id in Perform(db, op).instances ensures HistoryOf(Perform(db, op), id) == HistoryOf(db, id) {
    }
  }

  lemma WriteKeepsReplay(registry: Registry, seen: Tables, db: Tables, p: Proposal, view: Instance)
    requires ValidRegistry(registry) && StoreOk(seen) && StoreOk(db) && Extends(seen, db) && AllReplay(registry, db)
    requires TransitionOf(p).Some? && IsView(registry, seen, TransitionOf(p).value.instanceID, view)
    requires MadeFor(p, view) && CallerGuard(p, view)
    ensures TransitionOf(p).value.events != [] && AllReplay(registry, Commit(db, TransitionOf(p).value))
  {
    hide ValidRegistry, StoreOk, Extends, AllReplay, TransitionOf, IsView, MadeFor, CallerGuard, ApplyAll, StageOutcomeOf,
         Staged, Settled, Addresses, ValidTransition, ValidEvents;
    var t := TransitionOf(p).value;
    ViewFacts(registry, seen, t.instanceID, view);
    SettledPosition(registry, view);
    PlansReplayExactly(registry, view, p);
    PlanProposable(p, view);
    NothingPending(registry, view, t.events);
    if StageOutcomeOf(db, t).Applied? {
      AppliedMeansCurrent(registry, seen, db, view, t);
      AppliedReplays(registry, db, view, t);
    }
  }

  /**
   * The multi-writer theorem: along every run from an empty store, whatever is
   * stale, lost or interleaved, every state is consistent, extends all earlier
   * ones, and every stored history replays.
   */
  lemma {:induction false} EveryHistoryReplays(registry: Registry, states: seq<Tables>, steps: seq<Step>, k: nat)
    requires ValidRegistry(registry) && Trace(registry, states, steps) && k < |states|
    ensures StoreOk(states[k]) && AllReplay(registry, states[k])
    ensures forall j | 0 <= j <= k :: StoreOk(states[j]) && Extends(states[j], states[k])
  {
    hide ValidRegistry, StoreOk, Extends, AllReplay, TransitionOf, IsView, MadeFor, CallerGuard, Commit, Perform, ValidOp;
    if k == 0 {
      NoTablesEmpty();
      EmptyIsOk(NO_TABLES);
      NothingReplays(registry);
      ExtendsItself(NO_TABLES);
    } else {
      EveryHistoryReplays(registry, states, steps, k - 1);
      var db, next := states[k - 1], states[k];
      assert Follows(registry, states, k - 1, steps[k - 1]);
      match steps[k - 1] {
        case WritePlan(p, seen, view, durable) =>
          if durable {
            WriteKeepsReplay(registry, states[seen], db, p, view);
            CommitKeepsAndExtends(db, TransitionOf(p).value);
          } else {
            ExtendsItself(db);
          }
        case Create(t, durable) =>
          if durable {
            CreateKeepsReplay(registry, db, t);
            CommitKeepsAndExtends(db, t);
          } else {
            ExtendsItself(db);
          }
        case OnWork(op) =>
          PerformKeeps(db, op);
          PerformExtends(db, op);
          WorkStepKeepsReplay(registry, db, op);
      }
      forall j | 0 <= j <= k ensures StoreOk(states[j]) && Extends(states[j], next) {
        if j == k {
          ExtendsItself(next);
        } else {
          ExtendsTransitive(states[j], db, next);
        }
      }
    }
  }

  lemma CreateKeepsReplay(registry: Registry, db: Tables, t: Transition)
    requires StoreOk(db) && AllReplay(registry, db) && ValidOp(DoCommit(t)) && t.expectedSequence == 0
    requires ReplayHistory(registry, t.events).Ok?
    ensures t.events != [] && AllReplay(registry, Commit(db, t))
  {
    hide StoreOk, AllReplay, ReplayHistory, StageOutcomeOf, Staged, ContiguousFrom, TimesOrdered, Anchored, DistinctWork;
    if StageOutcomeOf(db, t).Applied? {
      CreatedReplays(registry, db, t);
    }
  }

  lemma NothingReplays(registry: Registry)
    ensures AllReplay(registry, NO_TABLES)
  {
  }
}
