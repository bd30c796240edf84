/** The ordered orchestrator: one deterministic decision from replayed progress. */
module Orchestration {
  import opened Basics
  import opened Definitions
  import opened Events
  import opened Replay
  import opened Transitions
  import opened Planners

  datatype BranchSpec = BranchSpec(stepName: string, workID: Ident, key: Ident, input: Data)

  datatype DecisionSpec = DecisionSpec(
    transitionID: Ident, workID: Ident, instance: Instance, definition: Definition, at: Time, deadline: Time,
    key: Ident, input: Data, result: Data, routing: Routing, childID: Ident, branches: seq<BranchSpec>)

  datatype Decision =
    | Waiting(stepName: string)
    | Scheduled(stepName: string, transition: Transition)
    | Recorded(stepName: string, transition: Transition)
    | Completion(transition: Transition)
    | Failure(stepName: string, transition: Transition)

  /** What one step contributes: nothing left to do, the decision itself, or an error. */
  datatype Verdict = Done | Decided(decision: Decision) | Broken

  function TerminalPlan(s: DecisionSpec, change: LifecycleKind): Option<Transition> {
    PlanOn(s.transitionID, s.instance, [EventOn(s.instance, Lifecycle(change), s.at).(data := s.result)], [])
  }

  function Fail(s: DecisionSpec, stepName: string): Verdict {
    var plan := TerminalPlan(s, InstanceFailed);
    if plan.None? then Broken else Decided(Failure(stepName, plan.value))
  }

  function Schedule(stepName: string, plan: Option<Transition>): Verdict {
    if plan.None? then Broken else Decided(Scheduled(stepName, plan.value))
  }

  function DecideActivity(s: DecisionSpec, step: StepSpec): Verdict {
    if step.name !in s.instance.activities then
      Schedule(step.name, NewActivitySchedule(ScheduleSpec(
        s.transitionID, s.workID, s.instance, s.definition, step.name, 1, s.key, s.at, s.deadline, s.input, s.routing)))
    else
      var progress := s.instance.activities[step.name];
      match progress.status
      case ActivitySucceeded => Done
      case ActivityFailed =>
        if progress.retryable && progress.attempt < step.retry.maxAttempts then Decided(Waiting(step.name))
        else Fail(s, step.name)
      case _ => Decided(Waiting(step.name))
  }

  function DecideTimer(s: DecisionSpec, step: StepSpec): Verdict {
    if step.name !in s.instance.timers then
      Schedule(step.name, NewTimerSchedule(TimerScheduleSpec(
        s.transitionID, s.workID, s.instance.id, s.instance.sequence, s.definition, step.name, s.at, s.deadline,
        s.routing)))
    else if s.instance.timers[step.name].fired then Done
    else Decided(Waiting(step.name))
  }

  function DecideChild(s: DecisionSpec, step: StepSpec): Verdict {
    if step.name !in s.instance.children then
      Schedule(step.name, NewChildSchedule(ChildScheduleSpec(
        s.transitionID, s.workID, s.childID, s.instance, s.definition, step.name, s.at, s.deadline, s.input, s.routing)))
    else
      var progress := s.instance.children[step.name];
      match progress.status
      case ChildSucceeded => Done
      case ChildHasFailed => Fail(s, step.name)
      case ChildStartHasFailed =>
        if progress.retryable && progress.attempt < step.retry.maxAttempts then Decided(Waiting(step.name))
        else Fail(s, step.name)
      case _ => Decided(Waiting(step.name))
  }

  // --- races --------------------------------------------------------------

  /** Earliest received branch among the first `n`, ties going to the one declared first. */
  function Winner(branches: seq<string>, signals: map<string, SignalProgress>): Option<string> {
    if branches == [] then None
    else
      var best := Winner(branches[..|branches| - 1], signals);
      var last := branches[|branches| - 1];
      if last in signals &&
         (best.None? || best.value !in signals || signals[last].receivedAt < signals[best.value].receivedAt)
      then Some(last)
      else best
  }

  predicate ReceiptsDated(signals: map<string, SignalProgress>) {
    forall name | name in signals :: signals[name].receivedAt != ZERO_TIME
  }

  /** The loop with a zero time standing for "no winner yet"; it computes the winner of every dated receipt set. */
  method FindWinner(branches: seq<string>, signals: map<string, SignalProgress>) returns (winner: Option<string>)
    requires ReceiptsDated(signals)
    ensures winner == Winner(branches, signals)
  {
    winner := None;
    var winnerAt := ZERO_TIME;
    for n := 0 to |branches|
      invariant winner == Winner(branches[..n], signals)
      invariant winner.None? <==> winnerAt == ZERO_TIME
      invariant winner.Some? ==> winner.value in signals && winnerAt == signals[winner.value].receivedAt
    {
      assert branches[..n + 1][..n] == branches[..n];
      var name := branches[n];
      if name in signals && (winnerAt == ZERO_TIME || signals[name].receivedAt < winnerAt) {
        winner, winnerAt := Some(name), signals[name].receivedAt;
      }
    }
    assert branches[..|branches|] == branches;
  }

  /** Branch `k` was received, no later than any other, and first in declared order among equals. */
  predicate Wins(branches: seq<string>, signals: map<string, SignalProgress>, k: nat) {
    && k < |branches| && branches[k] in signals
    && forall j | 0 <= j < |branches| && branches[j] in signals ::
         signals[branches[k]].receivedAt < signals[branches[j]].receivedAt ||
         (signals[branches[k]].receivedAt == signals[branches[j]].receivedAt && (k <= j || branches[j] == branches[k]))
  }

  /** The winner is the minimum by receipt time and then declared order; there is none only without receipts. */
  lemma {:induction false} WinnerIsMinimal(branches: seq<string>, signals: map<string, SignalProgress>) returns (k: nat)
    ensures Winner(branches, signals).None? <==> forall b | b in branches :: b !in signals
    ensures Winner(branches, signals).Some? ==>
              Wins(branches, signals, k) && Winner(branches, signals) == Some(branches[k])
  {
    k := 0;
    if branches != [] {
      var init, last := branches[..|branches| - 1], branches[|branches| - 1];
      var j := WinnerIsMinimal(init, signals);
      assert forall b | b in branches :: b in init || b == last;
      if Winner(branches, signals) == Winner(init, signals) {
        k := j;
      } else {
        k := |branches| - 1;
      }
    }
  }

  function DecideRace(s: DecisionSpec, step: StepSpec): Verdict {
    if step.name in s.instance.races then Done
    else
      var winner := Winner(step.branches, s.instance.signals);
      if winner.None? then Decided(Waiting(step.name))
      else
        var e := EventOn(s.instance, RaceWon, s.at).(stepName := step.name, data := Bytes(winner.value));
        var plan := PlanOn(s.transitionID, s.instance, [e], []);
        if plan.None? then Broken else Decided(Recorded(step.name, plan.value))
  }

  // --- parallel steps -----------------------------------------------------

  /** Either all seen branches allow going on, some of them not admitted yet, or the step is decided. */
  datatype Scan = Missing(count: nat) | Halt(verdict: Verdict)

  function AttemptBound(d: Definition, name: string): nat {
    var step := FindStep(d.steps, name, StepActivity);
    if step.None? then 0 else step.value.retry.maxAttempts
  }

  function ScanBranches(s: DecisionSpec, step: StepSpec, k: nat): Scan
    requires k <= |step.branches|
  {
    if k == 0 then Missing(0)
    else
      var before := ScanBranches(s, step, k - 1);
      var name := step.branches[k - 1];
      if before.Halt? then before
      else if name !in s.instance.activities then Missing(before.count + 1)
      else
        var progress := s.instance.activities[name];
        match progress.status
        case ActivitySucceeded => before
        case ActivityFailed =>
          if progress.retryable && progress.attempt < AttemptBound(s.definition, name) then
            Halt(Decided(Waiting(step.name)))
          else Halt(Fail(s, name))
        case _ => Halt(Decided(Waiting(step.name)))
  }

  function FindBranch(branches: seq<BranchSpec>, name: string): (found: Option<BranchSpec>)
    ensures found.Some? ==> found.value in branches && found.value.stepName == name
    ensures found.None? ==> forall b | b in branches :: b.stepName != name
  {
    if branches == [] then None
    else if branches[0].stepName == name then Some(branches[0])
    else FindBranch(branches[1..], name)
  }

  predicate DistinctBranches(branches: seq<BranchSpec>) {
    forall i, j | 0 <= i < j < |branches| :: branches[i].stepName != branches[j].stepName
  }

  predicate BranchReady(s: DecisionSpec, name: string) {
    var branch := FindBranch(s.branches, name);
    var step := FindStep(s.definition.steps, name, StepActivity);
    branch.Some? && step.Some? && ValidIdent(branch.value.key) && branch.value.input.Size() <= step.value.inputLimit
  }

  function BranchEvent(s: DecisionSpec, name: string, index: nat): HistoryEvent
    requires BranchReady(s, name)
  {
    BlankEvent(Wrapped(s.instance.sequence + index + 1), s.instance.id, Activity(AttemptAdmitted), s.at).(
      stepName := name, data := FindBranch(s.branches, name).value.input)
  }

  function BranchWork(s: DecisionSpec, name: string, index: nat): PendingWork
    requires BranchReady(s, name)
  {
    var branch := FindBranch(s.branches, name).value;
    PendingWork(branch.workID, WorkActivity, s.instance.id, Wrapped(s.instance.sequence + index + 1), s.at, s.deadline,
                DispatchDocument(name, 1, branch.key), s.routing.tenantID, s.routing.correlationID)
  }

  function BranchEvents(s: DecisionSpec, names: seq<string>): (events: seq<HistoryEvent>)
    requires forall b | b in names :: BranchReady(s, b)
    ensures |events| == |names|
    ensures forall k | 0 <= k < |names| :: events[k] == BranchEvent(s, names[k], k)
  {
    if names == [] then []
    else BranchEvents(s, names[..|names| - 1]) + [BranchEvent(s, names[|names| - 1], |names| - 1)]
  }

  function BranchWorks(s: DecisionSpec, names: seq<string>): (work: seq<PendingWork>)
    requires forall b | b in names :: BranchReady(s, b)
    ensures |work| == |names|
    ensures forall k | 0 <= k < |names| :: work[k] == BranchWork(s, names[k], k)
  {
    if names == [] then []
    else BranchWorks(s, names[..|names| - 1]) + [BranchWork(s, names[|names| - 1], |names| - 1)]
  }

  /** Admits every branch of one parallel step in one plan. */
  function ParallelPlan(s: DecisionSpec, control: StepSpec): Option<Transition> {
    if !DistinctBranches(s.branches) || |s.branches| != |control.branches| ||
       !(forall b | b in control.branches :: BranchReady(s, b))
    then None
    else PlanOn(s.transitionID, s.instance, BranchEvents(s, control.branches), BranchWorks(s, control.branches))
  }

  function DecideParallel(s: DecisionSpec, step: StepSpec): Verdict {
    match ScanBranches(s, step, |step.branches|)
    case Halt(verdict) => verdict
    case Missing(count) =>
      if count == 0 then Done
      else if count != |step.branches| then Broken
      else Schedule(step.name, ParallelPlan(s, step))
  }

  function DecideJoin(s: DecisionSpec, step: StepSpec): Verdict {
    if forall b | b in step.branches :: b in s.instance.activities && s.instance.activities[b].status.ActivitySucceeded?
    then Done
    else Decided(Waiting(step.name))
  }

  // --- the ordered loop ---------------------------------------------------

  /** Names owned by a parallel or race step. */
  predicate IsMember(steps: seq<StepSpec>, name: string) {
    exists k | 0 <= k < |steps| :: Owns(steps[k]) && name in steps[k].branches
  }

  /** Owned leaves are decided by their owner, not in their own turn. */
  predicate Skipped(steps: seq<StepSpec>, step: StepSpec) {
    IsMember(steps, step.name) && !IsControl(step.kind)
  }

  function DecideStep(s: DecisionSpec, step: StepSpec): Verdict {
    match step.kind
    case StepActivity => DecideActivity(s, step)
    case StepTimer => DecideTimer(s, step)
    case StepSignal | StepApproval =>
      if step.name in s.instance.signals then Done else Decided(Waiting(step.name))
    case StepParallel => DecideParallel(s, step)
    case StepJoin => DecideJoin(s, step)
    case StepRace => DecideRace(s, step)
    case StepChild => DecideChild(s, step)
    case UnknownStep => Broken
  }

  function TurnOf(s: DecisionSpec, k: nat): Verdict
    requires k < |s.definition.steps|
  {
    var step := s.definition.steps[k];
    if Skipped(s.definition.steps, step) then Done else DecideStep(s, step)
  }

  function DecideFrom(s: DecisionSpec, k: nat): Result<Decision>
    requires k <= |s.definition.steps|
    decreases |s.definition.steps| - k
  {
    if k == |s.definition.steps| then
      var plan := TerminalPlan(s, InstanceCompleted);
      if plan.None? then Err(InvalidOrchestration) else Ok(Completion(plan.value))
    else
      match TurnOf(s, k)
      case Done => DecideFrom(s, k + 1)
      case Decided(decision) => Ok(decision)
      case Broken => Err(InvalidOrchestration)
  }

  predicate Decidable(s: DecisionSpec) {
    s.definition.mode.Orchestration? && s.definition.Reference() == s.instance.definition && s.instance.status.Running?
  }

  function Decide(s: DecisionSpec): Result<Decision> {
    if Decidable(s) then DecideFrom(s, 0) else Err(InvalidOrchestration)
  }

  // --- as statements ------------------------------------------------------

  method BranchMembers(steps: seq<StepSpec>) returns (members: set<string>)
    ensures forall name :: name in members <==> IsMember(steps, name)
  {
    members := {};
    for k := 0 to |steps|
      invariant forall name :: name in members <==>
                  exists j | 0 <= j < k :: Owns(steps[j]) && name in steps[j].branches
    {
      if steps[k].kind == StepParallel || steps[k].kind == StepRace {
        var branches := steps[k].branches;
        ghost var before := members;
        for n := 0 to |branches|
          invariant forall name :: name in members <==> name in before || exists m | 0 <= m < n :: branches[m] == name
        {
          members := members + {branches[n]};
        }
      }
    }
  }

  /** The branch index that planning fills first; `None` for a repeated branch name. */
  method IndexBranches(branches: seq<BranchSpec>) returns (index: Option<map<string, BranchSpec>>)
    ensures index.Some? <==> DistinctBranches(branches)
    ensures index.Some? ==> |index.value| == |branches|
    ensures index.Some? ==> forall name :: FindBranch(branches, name) == Lookup(index.value, name)
  {
    var found: map<string, BranchSpec> := map[];
    for n := 0 to |branches|
      invariant forall k | 0 <= k < n :: branches[k].stepName in found && found[branches[k].stepName] == branches[k]
      invariant forall name | name in found :: exists k | 0 <= k < n :: branches[k].stepName == name
      invariant forall i, j | 0 <= i < j < n :: branches[i].stepName != branches[j].stepName
      invariant |found| == n
    {
      if branches[n].stepName in found {
        return None;
      }
      found := found[branches[n].stepName := branches[n]];
    }
    forall name ensures FindBranch(branches, name) == Lookup(found, name) {
      var first := FindBranch(branches, name);
      if first.Some? {
        var k :| 0 <= k < |branches| && branches[k] == first.value;
      }
    }
    index := Some(found);
  }

  lemma BranchesGrow(s: DecisionSpec, names: seq<string>, n: nat)
    requires n < |names| && (forall b | b in names[..n] :: BranchReady(s, b)) && BranchReady(s, names[n])
    ensures forall b | b in names[..n + 1] :: BranchReady(s, b)
    ensures BranchEvents(s, names[..n + 1]) == BranchEvents(s, names[..n]) + [BranchEvent(s, names[n], n)]
    ensures BranchWorks(s, names[..n + 1]) == BranchWorks(s, names[..n]) + [BranchWork(s, names[n], n)]
  {
    hide BranchReady;
    assert names[..n + 1] == names[..n] + [names[n]];
    assert names[..n + 1][..n] == names[..n];
  }

  method ScheduleParallel(s: DecisionSpec, control: StepSpec) returns (plan: Option<Transition>)
    ensures plan == ParallelPlan(s, control)
  {
    hide FindBranch, BranchEvents, BranchWorks, BranchEvent, BranchWork, DistinctBranches, PlanOn, ValidIdent;
    var index := IndexBranches(s.branches);
    if index.None? || |index.value| != |control.branches| {
      return None;
    }
    var events: seq<HistoryEvent> := [];
    var work: seq<PendingWork> := [];
    for n := 0 to |control.branches|
      invariant forall b | b in control.branches[..n] :: BranchReady(s, b)
      invariant events == BranchEvents(s, control.branches[..n])
      invariant work == BranchWorks(s, control.branches[..n])
    {
      var name := control.branches[n];
      assert FindBranch(s.branches, name) == Lookup(index.value, name);
      assert name in control.branches;
      if name !in index.value {
        return None;
      }
      var branch := index.value[name];
      var step := FindStep(s.definition.steps, name, StepActivity);
      if step.None? || !ValidIdent(branch.key) || branch.input.Size() > step.value.inputLimit {
        return None;
      }
      BranchesGrow(s, control.branches, n);
      events := events + [BranchEvent(s, name, n)];
      work := work + [BranchWork(s, name, n)];
    }
    assert control.branches[..|control.branches|] == control.branches;
    plan := PlanOn(s.transitionID, s.instance, events, work);
  }

  method DecideParallelStep(s: DecisionSpec, step: StepSpec) returns (verdict: Verdict)
    ensures verdict == DecideParallel(s, step)
  {
    hide ParallelPlan, Fail;
    var missing := 0;
    for n := 0 to |step.branches|
      invariant ScanBranches(s, step, n) == Missing(missing)
    {
      var name := step.branches[n];
      if name !in s.instance.activities {
        missing := missing + 1;
        continue;
      }
      var progress := s.instance.activities[name];
      match progress.status {
        case ActivitySucceeded =>
        case ActivityFailed =>
          HaltSticks(s, step, n + 1);
          if progress.retryable && progress.attempt < AttemptBound(s.definition, name) {
            return Decided(Waiting(step.name));
          }
          return Fail(s, name);
        case _ =>
          HaltSticks(s, step, n + 1);
          return Decided(Waiting(step.name));
      }
    }
    if missing == 0 {
      return Done;
    }
    if missing != |step.branches| {
      return Broken;
    }
    var plan := ScheduleParallel(s, step);
    verdict := Schedule(step.name, plan);
  }

  lemma {:induction false} HaltSticks(s: DecisionSpec, step: StepSpec, k: nat)
    requires k <= |step.branches|
    ensures ScanBranches(s, step, k).Halt? ==> ScanBranches(s, step, |step.branches|) == ScanBranches(s, step, k)
    decreases |step.branches| - k
  {
    hide Fail;
    if k < |step.branches| {
      HaltSticks(s, step, k + 1);
    }
  }

  method DecideRaceStep(s: DecisionSpec, step: StepSpec) returns (verdict: Verdict)
    requires ReceiptsDated(s.instance.signals)
    ensures verdict == DecideRace(s, step)
  {
    if step.name in s.instance.races {
      return Done;
    }
    var winner := FindWinner(step.branches, s.instance.signals);
    if winner.None? {
      return Decided(Waiting(step.name));
    }
    var e := EventOn(s.instance, RaceWon, s.at).(stepName := step.name, data := Bytes(winner.value));
    var plan := PlanOn(s.transitionID, s.instance, [e], []);
    verdict := if plan.None? then Broken else Decided(Recorded(step.name, plan.value));
  }

  method DecideJoinStep(s: DecisionSpec, step: StepSpec) returns (verdict: Verdict)
    ensures verdict == DecideJoin(s, step)
  {
    for n := 0 to |step.branches|
      invariant forall m | 0 <= m < n ::
                  step.branches[m] in s.instance.activities &&
                  s.instance.activities[step.branches[m]].status.ActivitySucceeded?
    {
      var name := step.branches[n];
      if name !in s.instance.activities || !s.instance.activities[name].status.ActivitySucceeded? {
        return Decided(Waiting(step.name));
      }
    }
    verdict := Done;
  }

  method NewOrchestrationDecision(s: DecisionSpec) returns (result: Result<Decision>)
    requires ReceiptsDated(s.instance.signals)
    ensures result == Decide(s)
  {
    hide DecideActivity, DecideTimer, DecideChild, DecideParallel, DecideJoin, DecideRace, TerminalPlan, ReceiptsDated,
         IsMember;
    if !s.definition.mode.Orchestration? || s.definition.Reference() != s.instance.definition ||
       !s.instance.status.Running? {
      return Err(InvalidOrchestration);
    }
    var steps := s.definition.steps;
    var members := BranchMembers(steps);
    for k := 0 to |steps|
      invariant DecideFrom(s, 0) == DecideFrom(s, k)
    {
      var step := steps[k];
      if step.name in members && !IsControl(step.kind) {
        continue;
      }
      var verdict := Broken;
      match step.kind {
        case StepActivity => verdict := DecideActivity(s, step);
        case StepTimer => verdict := DecideTimer(s, step);
        case StepSignal | StepApproval =>
          verdict := if step.name in s.instance.signals then Done else Decided(Waiting(step.name));
        case StepParallel => verdict := DecideParallelStep(s, step);
        case StepJoin => verdict := DecideJoinStep(s, step);
        case StepRace => verdict := DecideRaceStep(s, step);
        case StepChild => verdict := DecideChild(s, step);
        case UnknownStep =>
      }
      match verdict {
        case Done =>
        case Decided(decision) => return Ok(decision);
        case Broken => return Err(InvalidOrchestration);
      }
    }
    var plan := TerminalPlan(s, InstanceCompleted);
    result := if plan.None? then Err(InvalidOrchestration) else Ok(Completion(plan.value));
  }
}
