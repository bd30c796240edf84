/** Runs: orchestrator decisions interleaved with external events on one instance. */
module OrchestrationRuns {
  import opened Basics
  import opened Definitions
  import opened Events
  import opened Replay
  import opened ReplayFrames
  import opened Transitions
  import opened Planners
  import opened Acceptance
  import opened PlannerSoundness
  import opened Orchestration
  import opened OrchestrationTheorems

  // --- what events can do to progress keys --------------------------------

  /** Progress recorded in `i` is still recorded in `j`. */
  predicate KeysKept(i: Instance, j: Instance) {
    && (forall n | n in i.activities :: n in j.activities) && (forall n | n in i.timers :: n in j.timers)
    && (forall n | n in i.races :: n in j.races) && (forall n | n in i.children :: n in j.children)
  }

  predicate IsAdmission(e: HistoryEvent) {
    e.kind.Activity? && e.kind.phase.AttemptAdmitted?
  }

  lemma EventKeepsKeys(registry: Registry, i: Instance, e: HistoryEvent)
    requires i.sequence != 0 && Apply(registry, i, e).Ok?
    ensures KeysKept(i, Apply(registry, i, e).value)
  {
    hide Apply, ApplyActivity, ApplyTimer, ApplyRace, ApplyChild;
    ApplyActivities(registry, i, e);
    ApplyTimers(registry, i, e);
    ApplyRaces(registry, i, e);
    ApplyChildren(registry, i, e);
  }

  lemma OnlyAdmissionAddsActivity(registry: Registry, i: Instance, e: HistoryEvent)
    requires i.sequence != 0 && Apply(registry, i, e).Ok? && !IsAdmission(e)
    ensures Apply(registry, i, e).value.activities.Keys == i.activities.Keys
  {
    hide Apply, ApplyActivity;
    ApplyActivities(registry, i, e);
    if e.kind.Activity? {
      ExistingActivity(registry, i, e);
    }
  }

  lemma ExistingActivity(registry: Registry, i: Instance, e: HistoryEvent)
    requires e.kind.Activity? && !IsAdmission(e) && ApplyActivity(registry, i, e.kind.phase, e).Some?
    ensures e.stepName in i.activities
  {
  }

  /** Accepted batches keep keys, pin (without migrations) and position. */
  lemma {:induction false} BatchKeeps(registry: Registry, i: Instance, events: seq<HistoryEvent>)
    requires i.sequence != 0 && ValidEvents(events) && ApplyAll(registry, i, events).Ok?
    ensures var j := ApplyAll(registry, i, events).value;
            && j.sequence != 0 && KeysKept(i, j) && j.updatedAt >= i.updatedAt
            && (MigrationFree(events) ==> j.definition == i.definition)
            && ((forall k | 0 <= k < |events| :: !IsAdmission(events[k])) ==> j.activities.Keys == i.activities.Keys)
            && (Terminal(i.status) ==> events == [])
  {
    hide Apply, ValidEvent, Terminal;
    if events != [] {
      var init, last := events[..|events| - 1], events[|events| - 1];
      BatchKeeps(registry, i, init);
      var j := ApplyAll(registry, i, init).value;
      EventKeepsKeys(registry, j, last);
      ApplyHeader(registry, j, last);
      PositiveSequence(last);
      if !IsAdmission(last) {
        OnlyAdmissionAddsActivity(registry, j, last);
      }
      assert forall k | 0 <= k < |init| :: init[k] == events[k];
    }
  }

  // --- races --------------------------------------------------------------

  /** Receipts recorded in `i` are unchanged in `j`, and later ones are not earlier than `at`. */
  predicate ReceiptsExtend(i: map<string, SignalProgress>, j: map<string, SignalProgress>, at: Time) {
    && (forall n | n in i :: n in j && j[n] == i[n])
    && (forall n | n in j && n !in i :: j[n].receivedAt >= at)
  }

  predicate ReceiptsBefore(signals: map<string, SignalProgress>, at: Time) {
    forall n | n in signals :: signals[n].receivedAt <= at && signals[n].receivedAt != ZERO_TIME
  }

  lemma FirstReceiptOnly(registry: Registry, i: Instance, e: HistoryEvent)
    requires e.kind.SignalReceived? && ApplySignal(registry, i, e).Some?
    ensures e.stepName !in i.signals && ApplySignal(registry, i, e).value.receivedAt == e.occurredAt
  {
  }

  lemma EventExtendsReceipts(registry: Registry, i: Instance, e: HistoryEvent)
    requires i.sequence != 0 && Apply(registry, i, e).Ok?
    ensures ReceiptsExtend(i.signals, Apply(registry, i, e).value.signals, i.updatedAt)
    ensures ReceiptsBefore(i.signals, i.updatedAt) && e.occurredAt != ZERO_TIME ==>
              ReceiptsBefore(Apply(registry, i, e).value.signals, e.occurredAt)
    ensures e.occurredAt >= i.updatedAt && Apply(registry, i, e).value.updatedAt == e.occurredAt
  {
    hide Apply, ApplySignal;
    ApplyHeader(registry, i, e);
    ApplySignals(registry, i, e);
    if e.kind.SignalReceived? {
      FirstReceiptOnly(registry, i, e);
    }
  }

  /** Receipt times of replayed instances are set and never later than the last event. */
  lemma {:induction false} ReceiptsAreDated(registry: Registry, h: seq<HistoryEvent>)
    requires h != [] && ValidEvents(h) && ApplyAll(registry, BLANK, h).Ok?
    ensures var i := ApplyAll(registry, BLANK, h).value;
            ReceiptsBefore(i.signals, i.updatedAt) && ReceiptsDated(i.signals)
  {
    hide Apply, ValidEvent;
    var init, last := h[..|h| - 1], h[|h| - 1];
    assert h == init + [last];
    PositiveSequence(last);
    if init == [] {
      assert ApplyAll(registry, BLANK, init) == Ok(BLANK);
      StartHeader(registry, last);
    } else {
      ReceiptsAreDated(registry, init);
      AcceptedShape(registry, init);
      EventExtendsReceipts(registry, ApplyAll(registry, BLANK, init).value, last);
    }
  }

  lemma {:induction false} BatchExtendsReceipts(registry: Registry, i: Instance, events: seq<HistoryEvent>)
    requires i.sequence != 0 && ValidEvents(events) && ApplyAll(registry, i, events).Ok?
    ensures ReceiptsExtend(i.signals, ApplyAll(registry, i, events).value.signals, i.updatedAt)
  {
    hide Apply, ValidEvent;
    if events != [] {
      var init, last := events[..|events| - 1], events[|events| - 1];
      BatchExtendsReceipts(registry, i, init);
      BatchKeeps(registry, i, init);
      EventExtendsReceipts(registry, ApplyAll(registry, i, init).value, last);
    }
  }

  /**
   * A race's outcome does not depend on when it is decided: whatever events
   * follow the first receipt, the winning receipt time is the same, and another
   * branch wins only if it is declared earlier and was received at that very time.
   */
  lemma RaceIsStable(registry: Registry, i: Instance, events: seq<HistoryEvent>, branches: seq<string>)
    returns (a: nat, b: nat)
    requires i.sequence != 0 && ValidEvents(events) && ApplyAll(registry, i, events).Ok?
    requires ReceiptsBefore(i.signals, i.updatedAt) && Winner(branches, i.signals).Some?
    ensures var later := ApplyAll(registry, i, events).value.signals;
            && Wins(branches, i.signals, a) && Winner(branches, i.signals) == Some(branches[a])
            && Wins(branches, later, b) && Winner(branches, later) == Some(branches[b])
            && later[branches[b]].receivedAt == i.signals[branches[a]].receivedAt
            && (branches[b] != branches[a] ==> b < a && branches[b] !in i.signals)
  {
    hide Apply, ValidEvent, Winner, ApplyAll;
    var later := ApplyAll(registry, i, events).value.signals;
    BatchExtendsReceipts(registry, i, events);
    a := WinnerIsMinimal(branches, i.signals);
    b := WinnerIsMinimal(branches, later);
    assert branches[a] in later;
    assert branches[b] in later;
  }

  // --- acceptance ---------------------------------------------------------

  function PlanOf(d: Decision): Option<Transition> {
    match d
    case Waiting(_) => None
    case Scheduled(_, t) => Some(t)
    case Recorded(_, t) => Some(t)
    case Completion(t) => Some(t)
    case Failure(_, t) => Some(t)
  }

  /** The decisions' plans differ only in what they record. */
  predicate IsTurnPlan(s: DecisionSpec, t: Transition) {
    || Some(t) == TerminalPlan(s, InstanceCompleted) || Some(t) == TerminalPlan(s, InstanceFailed)
    || exists k | 0 <= k < |s.definition.steps| ::
         !Skipped(s.definition.steps, s.definition.steps[k]) && StepPlan(s, s.definition.steps[k], t)
  }

  /** A step's admission or race record, made only while it is absent. */
  predicate StepPlan(s: DecisionSpec, step: StepSpec, t: Transition) {
    match step.kind
    case StepActivity =>
      step.name !in s.instance.activities &&
      Some(t) == NewActivitySchedule(ScheduleSpec(
        s.transitionID, s.workID, s.instance, s.definition, step.name, 1, s.key, s.at, s.deadline, s.input, s.routing))
    case StepTimer =>
      step.name !in s.instance.timers &&
      Some(t) == NewTimerSchedule(TimerScheduleSpec(
        s.transitionID, s.workID, s.instance.id, s.instance.sequence, s.definition, step.name, s.at, s.deadline,
        s.routing))
    case StepChild =>
      step.name !in s.instance.children &&
      Some(t) == NewChildSchedule(ChildScheduleSpec(
        s.transitionID, s.workID, s.childID, s.instance, s.definition, step.name, s.at, s.deadline, s.input, s.routing))
    case StepParallel =>
      && step.branches != [] && (forall b | b in step.branches :: b !in s.instance.activities)
      && Some(t) == ParallelPlan(s, step)
    case StepRace =>
      && step.name !in s.instance.races && Winner(step.branches, s.instance.signals).Some?
      && Some(t) == PlanOn(s.transitionID, s.instance,
                           [EventOn(s.instance, RaceWon, s.at).(
                              stepName := step.name,
                              data := Bytes(Winner(step.branches, s.instance.signals).value))], [])
    case _ => false
  }

  lemma {:induction false} AllMissing(s: DecisionSpec, step: StepSpec, k: nat)
    requires k <= |step.branches|
    ensures ScanBranches(s, step, k) == Missing(k) ==>
              forall m | 0 <= m < k :: step.branches[m] !in s.instance.activities
    ensures ScanBranches(s, step, k).Missing? ==> ScanBranches(s, step, k).count <= k
  {
    hide Fail;
    if k > 0 {
      AllMissing(s, step, k - 1);
    }
  }

  lemma {:induction false} HaltPlans(s: DecisionSpec, step: StepSpec, k: nat)
    requires k <= |step.branches|
    ensures var scan := ScanBranches(s, step, k);
            scan.Halt? && scan.verdict.Decided? ==>
              PlanOf(scan.verdict.decision).None? || PlanOf(scan.verdict.decision) == TerminalPlan(s, InstanceFailed)
  {
    hide TerminalPlan;
    if k > 0 {
      HaltPlans(s, step, k - 1);
    }
  }

  lemma TurnPlan(s: DecisionSpec, step: StepSpec)
    ensures DecideStep(s, step).Decided? ==>
              var plan := PlanOf(DecideStep(s, step).decision);
              plan.None? || plan == TerminalPlan(s, InstanceFailed) || StepPlan(s, step, plan.value)
  {
    hide PlanOn, NewActivitySchedule, NewTimerSchedule, NewChildSchedule, ParallelPlan, Winner, TerminalPlan;
    if step.kind.StepParallel? {
      hide ScanBranches;
      HaltPlans(s, step, |step.branches|);
      AllMissing(s, step, |step.branches|);
    }
  }

  /** Every committed decision is a terminal record or one absent step's admission. */
  lemma DecisionPlan(s: DecisionSpec)
    requires Decide(s).Ok? && PlanOf(Decide(s).value).Some?
    ensures IsTurnPlan(s, PlanOf(Decide(s).value).value) && Decidable(s)
  {
    hide DecideStep, TerminalPlan, DecideFrom, Satisfied, Skipped, StepPlan;
    assert SatisfiedUpTo(s, 0);
    var m := DecisionPosition(s, 0);
    if m < |s.definition.steps| {
      TurnPlan(s, s.definition.steps[m]);
    }
  }

  lemma TerminalPlanExactly(registry: Registry, s: DecisionSpec, change: LifecycleKind)
    requires Settled(registry, s.instance) && s.instance.status.Running?
    requires change.InstanceCompleted? || change.InstanceFailed?
    requires TerminalPlan(s, change).Some?
    ensures Replayed(registry, s.instance, TerminalPlan(s, change)).Ok? <==> s.at >= s.instance.updatedAt
    ensures s.at >= s.instance.updatedAt ==>
              Replayed(registry, s.instance, TerminalPlan(s, change)) ==
              Ok(Later(s.instance, s.at).(
                   status := if change.InstanceCompleted? then Completed else Failed, result := s.result))
  {
    hide Apply, ValidTransition, ValidEvent, Terminal;
    var i, e := s.instance, TerminalPlan(s, change).value.events[0];
    RunningIsLive(i.status);
    ApplyOne(registry, i, e);
    if s.at >= i.updatedAt {
      AcceptLifecycle(registry, i, e);
    } else {
      RefusesEarlier(registry, i, e);
    }
  }

  lemma RacePlanExactly(registry: Registry, s: DecisionSpec, k: nat, t: Transition)
    requires Settled(registry, s.instance) && Decidable(s) && UniqueNames(s.definition.steps)
    requires k < |s.definition.steps| && s.definition.steps[k].kind.StepRace?
    requires StepPlan(s, s.definition.steps[k], t)
    ensures ApplyAll(registry, s.instance, t.events).Ok? <==> s.at >= s.instance.updatedAt
    ensures s.at >= s.instance.updatedAt ==>
              ApplyAll(registry, s.instance, t.events) ==
              Ok(Later(s.instance, s.at).(
                   races := s.instance.races[s.definition.steps[k].name := RaceProgress(
                     s.definition.steps[k].name,
                     Winner(s.definition.steps[k].branches, s.instance.signals).value, s.at)]))
  {
    hide Apply, ValidTransition, ValidEvent, Terminal, Winner;
    var i, e := s.instance, t.events[0];
    var step := s.definition.steps[k];
    PinnedSteps(registry, i, s.definition);
    FindStepUnique(s.definition.steps, k);
    var w := WinnerIsMinimal(step.branches, i.signals);
    RunningIsLive(i.status);
    ApplyOne(registry, i, e);
    if s.at >= i.updatedAt {
      AcceptRace(registry, i, e);
    } else {
      RefusesEarlier(registry, i, e);
    }
  }

  /** After the first `n` branch admissions of a parallel plan. */
  predicate AdmittedUpTo(s: DecisionSpec, branches: seq<string>, n: nat, j: Instance)
    requires n <= |branches| && forall b | b in branches :: BranchReady(s, b)
  {
    && j == s.instance.(activities := j.activities, sequence := j.sequence, updatedAt := j.updatedAt)
    && j.sequence == s.instance.sequence + n && j.updatedAt == (if n > 0 then s.at else s.instance.updatedAt)
    && (forall name | name in s.instance.activities ::
          name in j.activities && j.activities[name] == s.instance.activities[name])
    && (forall k | 0 <= k < n ::
          && branches[k] in j.activities && BranchReady(s, branches[k])
          && j.activities[branches[k]] == ActivityProgress(
               branches[k], ActivityReady, 0, NO_IDENT, ZERO_TIME, FindBranch(s.branches, branches[k]).value.input,
               EMPTY, "", false))
    && (forall name | name in j.activities ::
          name in s.instance.activities || exists k | 0 <= k < n :: branches[k] == name)
  }

  /** One branch admission on the way. */
  lemma BranchAccepted(registry: Registry, s: DecisionSpec, branches: seq<string>, n: nat, j: Instance)
    requires Settled(registry, s.instance) && Decidable(s) && s.at >= s.instance.updatedAt
    requires (forall b | b in branches :: BranchReady(s, b)) && Distinct(branches) && n < |branches|
    requires forall b | b in branches :: b !in s.instance.activities
    requires AdmittedUpTo(s, branches, n, j)
    requires BranchEvent(s, branches[n], n).sequence == s.instance.sequence + n + 1
    ensures Apply(registry, j, BranchEvent(s, branches[n], n)).Ok?
    ensures AdmittedUpTo(s, branches, n + 1, Apply(registry, j, BranchEvent(s, branches[n], n)).value)
  {
    hide Apply, Terminal, FindBranch, Wrapped;
    var e := BranchEvent(s, branches[n], n);
    PinnedSteps(registry, s.instance, s.definition);
    RunningIsLive(j.status);
    assert BranchReady(s, branches[n]);
    assert branches[n] !in s.instance.activities;
    AcceptActivity(registry, j, e);
  }

  lemma {:induction false} BranchesAccepted(registry: Registry, s: DecisionSpec, branches: seq<string>, n: nat)
    requires Settled(registry, s.instance) && Decidable(s) && s.at >= s.instance.updatedAt
    requires (forall b | b in branches :: BranchReady(s, b)) && Distinct(branches) && n <= |branches|
    requires forall b | b in branches :: b !in s.instance.activities
    requires ContiguousFrom(BranchEvents(s, branches), s.instance.id, s.instance.sequence + 1)
    ensures ApplyAll(registry, s.instance, BranchEvents(s, branches)[..n]).Ok?
    ensures AdmittedUpTo(s, branches, n, ApplyAll(registry, s.instance, BranchEvents(s, branches)[..n]).value)
  {
    hide Apply, BranchReady, Settled, Decidable, BranchEvent;
    var events := BranchEvents(s, branches);
    if n == 0 {
      assert events[..0] == [];
      assert ApplyAll(registry, s.instance, []) == Ok(s.instance);
    } else {
      hide AdmittedUpTo;
      BranchesAccepted(registry, s, branches, n - 1);
      assert events[..n][..n - 1] == events[..n - 1];
      assert events[n - 1].sequence == s.instance.sequence + 1 + (n - 1);
      BranchAccepted(registry, s, branches, n - 1, ApplyAll(registry, s.instance, events[..n - 1]).value);
    }
  }

  lemma RefusesEarlierBatch(registry: Registry, i: Instance, events: seq<HistoryEvent>)
    requires i.sequence != 0 && events != [] && events[0].occurredAt < i.updatedAt
    ensures ApplyAll(registry, i, events).Err?
  {
    hide Apply;
    assert events == [events[0]] + events[1..];
    ApplyAllConcat(registry, i, [events[0]], events[1..]);
    ApplyOne(registry, i, events[0]);
    RefusesEarlier(registry, i, events[0]);
  }

  lemma ParallelPlanShape(s: DecisionSpec, step: StepSpec, t: Transition)
    requires step.kind.StepParallel? && StepPlan(s, step, t)
    ensures step.branches != [] && (forall b | b in step.branches :: BranchReady(s, b))
    ensures forall b | b in step.branches :: b !in s.instance.activities
    ensures t.events == BranchEvents(s, step.branches)
    ensures ContiguousFrom(t.events, s.instance.id, s.instance.sequence + 1)
  {
    hide BranchReady, BranchEvent, BranchWork, DistinctBranches, BranchEvents, BranchWorks;
  }

  /** A parallel plan replays exactly when it is not dated before the instance; it admits every branch. */
  lemma ParallelPlanExactly(registry: Registry, s: DecisionSpec, step: StepSpec, t: Transition)
    requires Settled(registry, s.instance) && Decidable(s)
    requires step.kind.StepParallel? && StepPlan(s, step, t) && Distinct(step.branches)
    ensures ApplyAll(registry, s.instance, t.events).Ok? <==> s.at >= s.instance.updatedAt
    ensures forall b | b in step.branches :: BranchReady(s, b)
    ensures s.at >= s.instance.updatedAt ==>
              AdmittedUpTo(s, step.branches, |step.branches|, ApplyAll(registry, s.instance, t.events).value)
  {
    hide Apply, BranchReady, Settled, Decidable, AdmittedUpTo, BranchEvent, StepPlan, ContiguousFrom, ApplyAll;
    ParallelPlanShape(s, step, t);
    if s.at >= s.instance.updatedAt {
      BranchesAccepted(registry, s, step.branches, |step.branches|);
      assert t.events[..|t.events|] == t.events;
    } else {
      BranchDated(s, step.branches[0]);
      SettledSequence(registry, s.instance);
      RefusesEarlierBatch(registry, s.instance, t.events);
    }
  }

  lemma SettledSequence(registry: Registry, i: Instance)
    requires Settled(registry, i)
    ensures i.sequence != 0
  {
  }

  lemma BranchDated(s: DecisionSpec, name: string)
    requires BranchReady(s, name)
    ensures BranchEvent(s, name, 0).occurredAt == s.at
  {
  }

  /**
   * Orchestrator plans against replay: some of the paths never compare the
   * decision time with the instance, and that comparison is all replay adds.
   */
  lemma DecisionsReplayExactly(registry: Registry, s: DecisionSpec)
    requires ValidRegistry(registry) && Settled(registry, s.instance) && Orchestrated(s)
    requires Decide(s).Ok? && PlanOf(Decide(s).value).Some?
    ensures Replayed(registry, s.instance, PlanOf(Decide(s).value)).Ok? <==> s.at >= s.instance.updatedAt
  {
    hide ValidRegistry, ApplyAll, StepPlan, TerminalPlan, Decide, Skipped, ValidStep, BranchesResolve, StableName,
         ValidControlFlow, Settled;
    var t := PlanOf(Decide(s).value).value;
    DecisionPlan(s);
    if Some(t) == TerminalPlan(s, InstanceCompleted) {
      TerminalPlanExactly(registry, s, InstanceCompleted);
    } else if Some(t) == TerminalPlan(s, InstanceFailed) {
      TerminalPlanExactly(registry, s, InstanceFailed);
    } else {
      var k :| 0 <= k < |s.definition.steps| && !Skipped(s.definition.steps, s.definition.steps[k]) &&
               StepPlan(s, s.definition.steps[k], t);
      StepPlanExactly(registry, s, k, t);
    }
  }

  lemma StepPlanExactly(registry: Registry, s: DecisionSpec, k: nat, t: Transition)
    requires ValidRegistry(registry) && Settled(registry, s.instance) && Orchestrated(s) && Decidable(s)
    requires k < |s.definition.steps| && StepPlan(s, s.definition.steps[k], t)
    ensures ApplyAll(registry, s.instance, t.events).Ok? <==> s.at >= s.instance.updatedAt
  {
    hide ValidRegistry, ApplyAll, BranchesResolve, StableName, ValidControlFlow, ParallelPlan, PlanOn, Winner,
         NewActivitySchedule, NewTimerSchedule, NewChildSchedule, Settled;
    var step := s.definition.steps[k];
    match step.kind {
      case StepActivity =>
        var spec := ScheduleSpec(s.transitionID, s.workID, s.instance, s.definition, step.name, 1, s.key, s.at,
                                 s.deadline, s.input, s.routing);
        ActivityScheduleSound(registry, spec);
        ScheduledInOrder(spec);
      case StepTimer =>
        var spec := TimerScheduleSpec(s.transitionID, s.workID, s.instance.id, s.instance.sequence, s.definition,
                                      step.name, s.at, s.deadline, s.routing);
        TimerAddresses(spec);
        TimerScheduleExactly(registry, s.instance, spec);
      case StepChild =>
        var spec := ChildScheduleSpec(s.transitionID, s.workID, s.childID, s.instance, s.definition, step.name, s.at,
                                      s.deadline, s.input, s.routing);
        ChildScheduleSound(registry, spec);
        ChildScheduledInOrder(spec);
      case StepParallel =>
        assert ValidStep(step);
        ParallelPlanExactly(registry, s, step, t);
      case StepRace =>
        RacePlanExactly(registry, s, k, t);
    }
  }

  lemma ScheduledInOrder(s: ScheduleSpec)
    requires NewActivitySchedule(s).Some?
    ensures s.at >= s.instance.updatedAt
  {
  }

  lemma ChildScheduledInOrder(s: ChildScheduleSpec)
    requires NewChildSchedule(s).Some?
    ensures s.at >= s.instance.updatedAt
  {
  }

  lemma TimerAddresses(s: TimerScheduleSpec)
    requires NewTimerSchedule(s).Some?
    ensures NewTimerSchedule(s).value.instanceID == s.instanceID
    ensures NewTimerSchedule(s).value.expectedSequence == s.expected
    ensures NewTimerSchedule(s).value.definition == s.definition.Reference()
  {
  }

  // --- runs ---------------------------------------------------------------

  /** One committed batch: an orchestrator decision, or anything else that replays without migrating. */
  datatype Commit = ByOrchestrator(spec: DecisionSpec) | External(events: seq<HistoryEvent>)

  function CommitOne(registry: Registry, d: Definition, i: Instance, c: Commit): Option<Instance> {
    match c
    case ByOrchestrator(spec) =>
      if spec.instance != i || spec.definition != d || Decide(spec).Err? || PlanOf(Decide(spec).value).None? then None
      else
        (match ApplyAll(registry, i, PlanOf(Decide(spec).value).value.events)
         case Err(_) => None
         case Ok(j) => Some(j))
    case External(events) =>
      if !ValidEvents(events) || !MigrationFree(events) then None
      else
        (match ApplyAll(registry, i, events)
         case Err(_) => None
         case Ok(j) => Some(j))
  }

  function Execute(registry: Registry, d: Definition, i: Instance, commits: seq<Commit>): Option<Instance> {
    if commits == [] then Some(i)
    else
      match Execute(registry, d, i, commits[..|commits| - 1])
      case None => None
      case Some(j) => CommitOne(registry, d, j, commits[|commits| - 1])
  }

  /** How many of the commits were orchestrator decisions. */
  function Decisions(commits: seq<Commit>): nat {
    if commits == [] then 0
    else Decisions(commits[..|commits| - 1]) + if commits[|commits| - 1].ByOrchestrator? then 1 else 0
  }

  /** The step has the progress key its own kind records. */
  predicate HasKey(i: Instance, step: StepSpec) {
    match step.kind
    case StepActivity => step.name in i.activities
    case StepTimer => step.name in i.timers
    case StepChild => step.name in i.children
    case StepRace => step.name in i.races
    case _ => true
  }

  /** Positions of steps that have not recorded anything yet. */
  function Open(i: Instance, d: Definition): set<nat> {
    set k: nat | k < |d.steps| && !HasKey(i, d.steps[k])
  }

  function LifeLeft(i: Instance): nat {
    if Terminal(i.status) then 0 else 1
  }

  lemma OpenShrinks(d: Definition, i: Instance, j: Instance)
    requires KeysKept(i, j)
    ensures Open(j, d) <= Open(i, d)
    ensures |Open(j, d)| <= |Open(i, d)|
    ensures (exists k :: k in Open(i, d) && k !in Open(j, d)) ==> |Open(j, d)| < |Open(i, d)|
  {
    SubsetSize(Open(j, d), Open(i, d));
    if k :| k in Open(i, d) && k !in Open(j, d) {
      ProperSubsetSmaller(Open(j, d), Open(i, d));
    }
  }

  /** The names an accepted batch adds to the activities are exactly those it admits. */
  lemma {:induction false} AdmissionsAddKeys(registry: Registry, i: Instance, events: seq<HistoryEvent>, name: string)
    requires i.sequence != 0 && ValidEvents(events) && ApplyAll(registry, i, events).Ok?
    ensures name in ApplyAll(registry, i, events).value.activities <==>
            name in i.activities || exists k | 0 <= k < |events| :: IsAdmission(events[k]) && events[k].stepName == name
  {
    hide Apply, ValidEvent, ApplyActivity;
    if events != [] {
      var init, last := events[..|events| - 1], events[|events| - 1];
      AdmissionsAddKeys(registry, i, init, name);
      BatchKeeps(registry, i, init);
      var j := ApplyAll(registry, i, init).value;
      ApplyActivities(registry, j, last);
      if !IsAdmission(last) {
        OnlyAdmissionAddsActivity(registry, j, last);
      }
      if name in i.activities || exists k | 0 <= k < |init| :: IsAdmission(init[k]) && init[k].stepName == name {
        EventKeepsKeys(registry, j, last);
      }
      assert events == init + [last];
    }
  }

  /** A record or admission of one absent step gives it its key. */
  lemma SinglePlanAddsKey(registry: Registry, s: DecisionSpec, k: nat, t: Transition)
    requires s.instance.sequence != 0 && k < |s.definition.steps| && StepPlan(s, s.definition.steps[k], t)
    requires !s.definition.steps[k].kind.StepParallel? && ApplyAll(registry, s.instance, t.events).Ok?
    ensures !HasKey(s.instance, s.definition.steps[k])
    ensures HasKey(ApplyAll(registry, s.instance, t.events).value, s.definition.steps[k])
  {
    hide Apply, ValidTransition, ValidEvent, Winner, ApplyActivity, ApplyTimer, ApplyChild, ApplyRace;
    var e := t.events[0];
    assert t.events == [e];
    ApplyOne(registry, s.instance, e);
    match s.definition.steps[k].kind {
      case StepActivity => ApplyActivities(registry, s.instance, e);
      case StepTimer => ApplyTimers(registry, s.instance, e);
      case StepChild => ApplyChildren(registry, s.instance, e);
      case StepRace => ApplyRaces(registry, s.instance, e);
    }
  }

  /** A parallel admission gives at least one absent activity step its key. */
  lemma ParallelPlanAddsKey(registry: Registry, s: DecisionSpec, step: StepSpec, t: Transition) returns (k: nat)
    requires s.instance.sequence != 0 && step.kind.StepParallel? && StepPlan(s, step, t)
    requires ValidEvents(t.events) && ApplyAll(registry, s.instance, t.events).Ok?
    ensures k < |s.definition.steps| && !HasKey(s.instance, s.definition.steps[k])
    ensures HasKey(ApplyAll(registry, s.instance, t.events).value, s.definition.steps[k])
  {
    hide Apply, StepPlan, ApplyAll, ValidEvents, ContiguousFrom;
    ParallelPlanShape(s, step, t);
    var name := step.branches[0];
    assert BranchReady(s, name);
    var found := FindStep(s.definition.steps, name, StepActivity).value;
    k :| 0 <= k < |s.definition.steps| && s.definition.steps[k] == found;
    assert IsAdmission(t.events[0]) && t.events[0].stepName == name;
    AdmissionsAddKeys(registry, s.instance, t.events, name);
  }

  /** Constructed for this instance, with neither a migration nor an audit among its events. */
  predicate Committable(t: Transition, i: Instance) {
    && Addresses(t, i) && ValidTransition(t) && ValidEvents(t.events) && t.events != []
    && (forall k | 0 <= k < |t.work| :: ValidWork(t.work[k]))
    && forall k | 0 <= k < |t.events| ::
         !IsMigration(t.events[k].kind) && !t.events[k].kind.OperatorCommandRecorded?
  }

  /** A single step's plan is one event, and an admission only of that very activity. */
  lemma SinglePlanShape(s: DecisionSpec, step: StepSpec, t: Transition)
    requires !step.kind.StepParallel? && StepPlan(s, step, t) && s.definition.Reference() == s.instance.definition
    ensures Committable(t, s.instance) && |t.events| == 1
    ensures IsAdmission(t.events[0]) ==> step.kind.StepActivity? && t.events[0].stepName == step.name
  {
    hide ValidEvent, ValidTransition, ValidWork, Winner, FindStep;
  }

  lemma TerminalPlanShape(s: DecisionSpec, change: LifecycleKind)
    requires TerminalPlan(s, change).Some? && !change.DefinitionMigrated?
    ensures var t := TerminalPlan(s, change).value;
            Committable(t, s.instance) && |t.events| == 1 && !IsAdmission(t.events[0])
  {
    hide ValidEvent, ValidTransition, ValidWork;
  }

  lemma ParallelShape(s: DecisionSpec, step: StepSpec, t: Transition)
    requires step.kind.StepParallel? && StepPlan(s, step, t)
    ensures Committable(t, s.instance) && |t.events| == |step.branches|
    ensures forall k | 0 <= k < |t.events| :: IsAdmission(t.events[k]) && t.events[k].stepName == step.branches[k]
  {
    hide ValidEvent, ValidTransition, ValidWork, FindBranch, DistinctBranches;
  }

  /** Every decision's plan is committable as it stands. */
  lemma DecisionCommittable(s: DecisionSpec, t: Transition)
    requires IsTurnPlan(s, t) && s.definition.Reference() == s.instance.definition
    ensures Committable(t, s.instance)
  {
    hide Committable, StepPlan, TerminalPlan, Skipped;
    if Some(t) == TerminalPlan(s, InstanceCompleted) {
      TerminalPlanShape(s, InstanceCompleted);
    } else if Some(t) == TerminalPlan(s, InstanceFailed) {
      TerminalPlanShape(s, InstanceFailed);
    } else {
      var k :| 0 <= k < |s.definition.steps| && StepPlan(s, s.definition.steps[k], t);
      if s.definition.steps[k].kind.StepParallel? {
        ParallelShape(s, s.definition.steps[k], t);
      } else {
        SinglePlanShape(s, s.definition.steps[k], t);
      }
    }
  }

  lemma CommittableEvents(t: Transition, i: Instance)
    requires Committable(t, i)
    ensures ValidEvents(t.events) && MigrationFree(t.events) && t.events != []
  {
    hide ValidEvent, ValidTransition, ValidWork;
  }

  lemma TerminalPlanEnds(registry: Registry, s: DecisionSpec, change: LifecycleKind)
    requires s.instance.sequence != 0 && TerminalPlan(s, change).Some?
    requires change.InstanceCompleted? || change.InstanceFailed?
    requires Replayed(registry, s.instance, TerminalPlan(s, change)).Ok?
    ensures Terminal(Replayed(registry, s.instance, TerminalPlan(s, change)).value.status)
  {
    hide Apply, ValidTransition, ValidEvent, Terminal;
    var e := TerminalPlan(s, change).value.events[0];
    assert TerminalPlan(s, change).value.events == [e];
    ApplyOne(registry, s.instance, e);
    ApplyHeader(registry, s.instance, e);
  }

  /** A committed decision ends the instance or gives some absent step its key. */
  lemma DecisionProgresses(registry: Registry, s: DecisionSpec) returns (k: nat)
    requires s.instance.sequence != 0 && Decide(s).Ok? && PlanOf(Decide(s).value).Some?
    requires Replayed(registry, s.instance, PlanOf(Decide(s).value)).Ok?
    ensures var j := Replayed(registry, s.instance, PlanOf(Decide(s).value)).value;
            && !Terminal(s.instance.status) && j.sequence != 0 && KeysKept(s.instance, j)
            && (Terminal(j.status) || (k in Open(s.instance, s.definition) && k !in Open(j, s.definition)))
  {
    hide ApplyAll, StepPlan, TerminalPlan, Decide, Skipped, Terminal, HasKey, Committable;
    var t := PlanOf(Decide(s).value).value;
    DecisionPlan(s);
    RunningIsLive(s.instance.status);
    DecisionCommittable(s, t);
    CommittableEvents(t, s.instance);
    BatchKeeps(registry, s.instance, t.events);
    k := 0;
    if Some(t) == TerminalPlan(s, InstanceCompleted) {
      TerminalPlanEnds(registry, s, InstanceCompleted);
    } else if Some(t) == TerminalPlan(s, InstanceFailed) {
      TerminalPlanEnds(registry, s, InstanceFailed);
    } else {
      k :| 0 <= k < |s.definition.steps| && StepPlan(s, s.definition.steps[k], t);
      if s.definition.steps[k].kind.StepParallel? {
        k := ParallelPlanAddsKey(registry, s, s.definition.steps[k], t);
      } else {
        SinglePlanAddsKey(registry, s, k, t);
      }
    }
  }

  /** The measure of a run: open steps and remaining life pay for every decision. */
  lemma {:induction false} DecisionsArePaidFor(registry: Registry, d: Definition, i: Instance, commits: seq<Commit>)
    requires i.sequence != 0 && Execute(registry, d, i, commits).Some?
    ensures var j := Execute(registry, d, i, commits).value;
            && j.sequence != 0
            && Decisions(commits) + |Open(j, d)| + LifeLeft(j) <= |Open(i, d)| + LifeLeft(i)
  {
    hide ApplyAll, Decide, Open, Terminal, KeysKept;
    if commits != [] {
      var init, last := commits[..|commits| - 1], commits[|commits| - 1];
      DecisionsArePaidFor(registry, d, i, init);
      var j := Execute(registry, d, i, init).value;
      var next := CommitOne(registry, d, j, last).value;
      match last {
        case ByOrchestrator(spec) =>
          var k := DecisionProgresses(registry, spec);
          OpenShrinks(d, j, next);
        case External(events) =>
          BatchKeeps(registry, j, events);
          OpenShrinks(d, j, next);
          if Terminal(j.status) {
            EmptyBatch(registry, j);
          }
      }
    }
  }

  lemma EmptyBatch(registry: Registry, i: Instance)
    ensures ApplyAll(registry, i, []) == Ok(i)
  {
  }

  lemma {:induction false} PositionsBounded(s: set<nat>, n: nat)
    requires forall k | k in s :: k < n
    ensures |s| <= n
  {
    if n > 0 {
      PositionsBounded(s - {n - 1}, n - 1);
      SubsetSize(s, (s - {n - 1}) + {n - 1});
    } else {
      assert s == {};
    }
  }

  /**
   * Orchestration ends: however external events interleave with it, a
   * migration-free run commits at most one decision per step and one more.
   */
  lemma DecisionsBounded(registry: Registry, d: Definition, i: Instance, commits: seq<Commit>)
    requires i.sequence != 0 && Execute(registry, d, i, commits).Some?
    ensures Decisions(commits) <= |d.steps| + 1
  {
    hide Execute;
    DecisionsArePaidFor(registry, d, i, commits);
    PositionsBounded(Open(i, d), |d.steps|);
  }

  // --- parallel branches --------------------------------------------------

  /** Each parallel step's branches were admitted together or not at all. */
  predicate AllOrNone(i: Instance, d: Definition) {
    forall p | 0 <= p < |d.steps| && d.steps[p].kind.StepParallel? :: TogetherIn(i, d.steps[p].branches)
  }

  predicate TogetherIn(i: Instance, branches: seq<string>) {
    (forall b | b in branches :: b in i.activities) || (forall b | b in branches :: b !in i.activities)
  }

  /** Only the orchestrator admits activities. */
  predicate OrchestratorAdmits(c: Commit) {
    c.External? ==> forall k | 0 <= k < |c.events| :: !IsAdmission(c.events[k])
  }

  lemma KeysEqualKeepTogether(d: Definition, i: Instance, j: Instance)
    requires AllOrNone(i, d) && i.activities.Keys == j.activities.Keys
    ensures AllOrNone(j, d)
  {
    forall p | 0 <= p < |d.steps| && d.steps[p].kind.StepParallel? ensures TogetherIn(j, d.steps[p].branches) {
      assert TogetherIn(i, d.steps[p].branches);
      assert forall b :: b in i.activities <==> b in i.activities.Keys;
      assert forall b :: b in j.activities <==> b in j.activities.Keys;
    }
  }

  /** A decision's plan admits one unowned activity, all branches of one parallel step, or nothing. */
  lemma PlanAdmissions(s: DecisionSpec, t: Transition)
    requires IsTurnPlan(s, t) && s.definition.Reference() == s.instance.definition
    ensures
      || (forall k | 0 <= k < |t.events| :: !IsAdmission(t.events[k]))
      || (|t.events| == 1 && !IsMember(s.definition.steps, t.events[0].stepName))
      || exists p | 0 <= p < |s.definition.steps| ::
           && s.definition.steps[p].kind.StepParallel? && |t.events| == |s.definition.steps[p].branches|
           && forall k | 0 <= k < |t.events| ::
                IsAdmission(t.events[k]) && t.events[k].stepName == s.definition.steps[p].branches[k]
  {
    hide Committable, StepPlan, TerminalPlan, IsMember;
    if Some(t) == TerminalPlan(s, InstanceCompleted) {
      TerminalPlanShape(s, InstanceCompleted);
    } else if Some(t) == TerminalPlan(s, InstanceFailed) {
      TerminalPlanShape(s, InstanceFailed);
    } else {
      var k :| 0 <= k < |s.definition.steps| && !Skipped(s.definition.steps, s.definition.steps[k]) &&
               StepPlan(s, s.definition.steps[k], t);
      if s.definition.steps[k].kind.StepParallel? {
        ParallelShape(s, s.definition.steps[k], t);
      } else {
        SinglePlanShape(s, s.definition.steps[k], t);
      }
    }
  }

  lemma DecisionKeepsTogether(registry: Registry, s: DecisionSpec)
    requires s.instance.sequence != 0 && Decide(s).Ok? && PlanOf(Decide(s).value).Some?
    requires Replayed(registry, s.instance, PlanOf(Decide(s).value)).Ok?
    requires ValidDefinition(s.definition) && AllOrNone(s.instance, s.definition)
    ensures AllOrNone(Replayed(registry, s.instance, PlanOf(Decide(s).value)).value, s.definition)
  {
    hide ApplyAll, Decide, IsTurnPlan, Committable, ValidStep, BranchesResolve, StableName, BranchKinds, JoinsParallel;
    var t := PlanOf(Decide(s).value).value;
    var j := ApplyAll(registry, s.instance, t.events).value;
    DecisionPlan(s);
    DecisionCommittable(s, t);
    CommittableEvents(t, s.instance);
    PlanAdmissions(s, t);
    BatchKeeps(registry, s.instance, t.events);
    forall p | 0 <= p < |s.definition.steps| && s.definition.steps[p].kind.StepParallel?
      ensures TogetherIn(j, s.definition.steps[p].branches)
    {
      assert TogetherIn(s.instance, s.definition.steps[p].branches);
      forall b | b in s.definition.steps[p].branches
        ensures b in j.activities <==>
                b in s.instance.activities ||
                exists k | 0 <= k < |t.events| :: IsAdmission(t.events[k]) && t.events[k].stepName == b
      {
        AdmissionsAddKeys(registry, s.instance, t.events, b);
      }
      AdmissionsKeepTogether(s.definition, t.events, p);
    }
  }

  /** The admissions of one plan meet a parallel step's branches in all of them or in none. */
  lemma AdmissionsKeepTogether(d: Definition, events: seq<HistoryEvent>, p: nat)
    requires ValidDefinition(d) && d.mode.Orchestration? && p < |d.steps| && d.steps[p].kind.StepParallel?
    requires
      || (forall k | 0 <= k < |events| :: !IsAdmission(events[k]))
      || (|events| == 1 && !IsMember(d.steps, events[0].stepName))
      || exists q | 0 <= q < |d.steps| ::
           && d.steps[q].kind.StepParallel? && |events| == |d.steps[q].branches|
           && forall k | 0 <= k < |events| :: IsAdmission(events[k]) && events[k].stepName == d.steps[q].branches[k]
    ensures
      || (forall b | b in d.steps[p].branches ::
            exists k | 0 <= k < |events| :: IsAdmission(events[k]) && events[k].stepName == b)
      || (forall k | 0 <= k < |events| :: IsAdmission(events[k]) ==> events[k].stepName !in d.steps[p].branches)
  {
    hide ValidStep, BranchesResolve, StableName, BranchKinds, JoinsParallel;
    if q :| 0 <= q < |d.steps| && d.steps[q].kind.StepParallel? && |events| == |d.steps[q].branches| &&
            forall k | 0 <= k < |events| :: IsAdmission(events[k]) && events[k].stepName == d.steps[q].branches[k] {
      assert q < p ==> Disjoint(d.steps, q, p);
      assert p < q ==> Disjoint(d.steps, p, q);
    }
  }

  /** Along every run in which only the orchestrator admits activities, branches stay together. */
  lemma {:induction false} BranchesStayTogether(registry: Registry, d: Definition, i: Instance, commits: seq<Commit>)
    requires i.sequence != 0 && ValidDefinition(d) && AllOrNone(i, d) && Execute(registry, d, i, commits).Some?
    requires forall k | 0 <= k < |commits| :: OrchestratorAdmits(commits[k])
    ensures AllOrNone(Execute(registry, d, i, commits).value, d)
  {
    hide ApplyAll, Decide, Open, Terminal, AllOrNone, ValidDefinition;
    if commits != [] {
      var init, last := commits[..|commits| - 1], commits[|commits| - 1];
      BranchesStayTogether(registry, d, i, init);
      DecisionsArePaidFor(registry, d, i, init);
      var j := Execute(registry, d, i, init).value;
      match last {
        case ByOrchestrator(spec) => DecisionKeepsTogether(registry, spec);
        case External(events) =>
          BatchKeeps(registry, j, events);
          KeysEqualKeepTogether(d, j, CommitOne(registry, d, j, last).value);
      }
    }
  }

  /** With branches together, the mixed-branch error cannot arise: a clear scan misses none or all of them. */
  lemma {:induction false} ScanNeverMixed(s: DecisionSpec, step: StepSpec, k: nat)
    requires k <= |step.branches| && TogetherIn(s.instance, step.branches)
    ensures ScanBranches(s, step, k).Missing? ==>
              ScanBranches(s, step, k).count == 0 || ScanBranches(s, step, k).count == k
    ensures (exists b :: b in step.branches && b in s.instance.activities) && ScanBranches(s, step, k).Missing? ==>
              ScanBranches(s, step, k).count == 0
  {
    hide Fail;
    if k > 0 {
      ScanNeverMixed(s, step, k - 1);
      assert step.branches[k - 1] in step.branches;
    }
  }

  /**
   * In a run started by the instance's first event, whatever the orchestrator
   * meets at a parallel step is all its branches or none of them.
   */
  lemma MixedBranchesUnreachable(registry: Registry, d: Definition, i: Instance, commits: seq<Commit>, s: DecisionSpec,
                                 p: nat)
    requires i.sequence != 0 && i.activities == map[] && ValidDefinition(d) && Execute(registry, d, i, commits).Some?
    requires forall k | 0 <= k < |commits| :: OrchestratorAdmits(commits[k])
    requires s.instance == Execute(registry, d, i, commits).value && p < |d.steps| && d.steps[p].kind.StepParallel?
    ensures var scan := ScanBranches(s, d.steps[p], |d.steps[p].branches|);
            scan.Missing? ==> scan.count == 0 || scan.count == |d.steps[p].branches|
  {
    hide Execute, ValidDefinition, ScanBranches;
    assert AllOrNone(i, d);
    BranchesStayTogether(registry, d, i, commits);
    ScanNeverMixed(s, d.steps[p], |d.steps[p].branches|);
  }
}
