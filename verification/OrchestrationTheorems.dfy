/** What one orchestration decision tells about the whole instance. */
module OrchestrationTheorems {
  import opened Basics
  import opened Definitions
  import opened Events
  import opened Replay
  import opened Planners
  import opened Orchestration

  predicate ActivitySatisfied(i: Instance, name: string) {
    name in i.activities && i.activities[name].status.ActivitySucceeded?
  }

  /** Step-level success, independent of how decisions are taken. */
  predicate Satisfied(i: Instance, step: StepSpec) {
    match step.kind
    case StepActivity => ActivitySatisfied(i, step.name)
    case StepChild => step.name in i.children && i.children[step.name].status.ChildSucceeded?
    case StepTimer => step.name in i.timers && i.timers[step.name].fired
    case StepSignal | StepApproval => step.name in i.signals
    case StepParallel | StepJoin => forall b | b in step.branches :: ActivitySatisfied(i, b)
    case StepRace => step.name in i.races
    case UnknownStep => false
  }

  /** A parallel scan reports nothing missing exactly when every seen branch succeeded. */
  lemma {:induction false} ScanMeaning(s: DecisionSpec, step: StepSpec, k: nat)
    requires k <= |step.branches|
    ensures ScanBranches(s, step, k) == Missing(0) <==>
            forall m | 0 <= m < k :: ActivitySatisfied(s.instance, step.branches[m])
    ensures ScanBranches(s, step, k).Missing? ==>
              && ScanBranches(s, step, k).count <= k
              && forall m | 0 <= m < k ::
                   step.branches[m] in s.instance.activities ==> ActivitySatisfied(s.instance, step.branches[m])
  {
    hide Fail;
    if k > 0 {
      ScanMeaning(s, step, k - 1);
    }
  }

  /** A step's turn is done exactly when the step is satisfied. */
  lemma DoneMeansSatisfied(s: DecisionSpec, step: StepSpec)
    ensures DecideStep(s, step).Done? <==> Satisfied(s.instance, step)
  {
    hide PlanOn, NewActivitySchedule, NewTimerSchedule, NewChildSchedule, ParallelPlan, Winner;
    if step.kind.StepParallel? {
      hide ScanBranches;
      ScanMeaning(s, step, |step.branches|);
      ScanVerdicts(s, step, |step.branches|);
    }
  }

  lemma {:induction false} ScanVerdicts(s: DecisionSpec, step: StepSpec, k: nat)
    requires k <= |step.branches|
    ensures ScanBranches(s, step, k).Halt? ==> !ScanBranches(s, step, k).verdict.Done?
  {
    hide TerminalPlan;
    if k > 0 {
      ScanVerdicts(s, step, k - 1);
    }
  }

  /** Every own-turn step before `m` is satisfied. */
  predicate SatisfiedUpTo(s: DecisionSpec, m: nat)
    requires m <= |s.definition.steps|
  {
    forall k | 0 <= k < m ::
      !Skipped(s.definition.steps, s.definition.steps[k]) ==> Satisfied(s.instance, s.definition.steps[k])
  }

  /** The position a decision was taken at: everything before is satisfied. */
  lemma {:induction false} DecisionPosition(s: DecisionSpec, k: nat) returns (m: nat)
    requires k <= |s.definition.steps| && SatisfiedUpTo(s, k)
    ensures k <= m <= |s.definition.steps| && SatisfiedUpTo(s, m)
    ensures m < |s.definition.steps| ==>
              && !Skipped(s.definition.steps, s.definition.steps[m]) && !Satisfied(s.instance, s.definition.steps[m])
              && DecideFrom(s, k) ==
                 (match DecideStep(s, s.definition.steps[m])
                  case Decided(decision) => Ok(decision)
                  case _ => Err(InvalidOrchestration))
    ensures m == |s.definition.steps| ==>
              DecideFrom(s, k) == if TerminalPlan(s, InstanceCompleted).None? then Err(InvalidOrchestration)
                                  else Ok(Completion(TerminalPlan(s, InstanceCompleted).value))
    decreases |s.definition.steps| - k
  {
    hide DecideStep, TerminalPlan, Satisfied, Skipped;
    m := k;
    if k < |s.definition.steps| {
      DoneMeansSatisfied(s, s.definition.steps[k]);
      if TurnOf(s, k).Done? {
        m := DecisionPosition(s, k + 1);
      }
    }
  }

  /** With unique names, the kinds a name resolves to are the kinds of the step that carries it. */
  lemma KindOfNamed(steps: seq<StepSpec>, k: nat, kinds: set<StepKind>)
    requires UniqueNames(steps) && k < |steps| && NamesKind(steps, steps[k].name, kinds)
    ensures steps[k].kind in kinds
  {
    var j :| 0 <= j < |steps| && steps[j].name == steps[k].name && steps[j].kind in kinds;
    SameName(steps, j, k);
  }

  lemma SameName(steps: seq<StepSpec>, j: nat, k: nat)
    requires UniqueNames(steps) && j < |steps| && k < |steps| && steps[j].name == steps[k].name
    ensures j == k
  {
  }

  predicate Orchestrated(s: DecisionSpec) {
    ValidDefinition(s.definition) && s.definition.mode.Orchestration?
  }

  predicate InSomeRace(steps: seq<StepSpec>, name: string) {
    exists p | 0 <= p < |steps| :: steps[p].kind.StepRace? && name in steps[p].branches
  }

  /** An owned leaf is an activity of a parallel step or a signal of a race. */
  lemma OwnedLeaf(d: Definition, k: nat) returns (p: nat)
    requires ValidDefinition(d) && d.mode.Orchestration? && k < |d.steps| && Skipped(d.steps, d.steps[k])
    ensures p < |d.steps| && d.steps[k].name in d.steps[p].branches
    ensures || (d.steps[p].kind.StepParallel? && d.steps[k].kind.StepActivity?)
            || (d.steps[p].kind.StepRace? && (d.steps[k].kind.StepSignal? || d.steps[k].kind.StepApproval?))
  {
    hide ValidStep, BranchesResolve, StableName, Disjoint, JoinsParallel;
    var steps := d.steps;
    p :| 0 <= p < |steps| && Owns(steps[p]) && steps[k].name in steps[p].branches;
    assert BranchKinds(steps, p);
    KindOfNamed(steps, k, if steps[p].kind.StepParallel? then {StepActivity} else {StepSignal, StepApproval});
  }

  lemma ControlTakesItsTurn(steps: seq<StepSpec>, p: nat)
    requires p < |steps| && (steps[p].kind.StepParallel? || steps[p].kind.StepRace?)
    ensures !Skipped(steps, steps[p])
  {
  }

  /** What completion of an instance means for one of its steps. */
  predicate CompletedStep(s: DecisionSpec, step: StepSpec) {
    || (InSomeRace(s.definition.steps, step.name) && (step.kind.StepSignal? || step.kind.StepApproval?))
    || Satisfied(s.instance, step)
  }

  /**
   * A Completed decision is never premature: every activity and child has
   * succeeded, every timer fired, every race has a winner, every join's branches
   * succeeded and every signal or approval outside races was received.
   */
  lemma CompletionIsComplete(s: DecisionSpec)
    requires Orchestrated(s) && Decide(s).Ok? && Decide(s).value.Completion?
    ensures forall k | 0 <= k < |s.definition.steps| :: CompletedStep(s, s.definition.steps[k])
  {
    hide DecideStep, TerminalPlan, ValidDefinition, DecideFrom;
    var steps := s.definition.steps;
    assert SatisfiedUpTo(s, 0);
    var m := DecisionPosition(s, 0);
    if m < |steps| {
      NoTurnCompletes(s, steps[m]);
    }
    forall k | 0 <= k < |steps| ensures CompletedStep(s, steps[k]) {
      if Skipped(steps, steps[k]) {
        var p := OwnedLeaf(s.definition, k);
        ControlTakesItsTurn(steps, p);
        assert Satisfied(s.instance, steps[p]);
      }
    }
  }

  lemma NoTurnCompletes(s: DecisionSpec, step: StepSpec)
    ensures DecideStep(s, step).Decided? ==> !DecideStep(s, step).decision.Completion?
  {
    hide PlanOn, NewActivitySchedule, NewTimerSchedule, NewChildSchedule, ParallelPlan, Winner, TerminalPlan;
    if step.kind.StepParallel? {
      hide ScanBranches;
      ScanHalts(s, step, |step.branches|);
    }
  }

  lemma {:induction false} ScanHalts(s: DecisionSpec, step: StepSpec, k: nat)
    requires k <= |step.branches|
    ensures var scan := ScanBranches(s, step, k);
            scan.Halt? && scan.verdict.Decided? ==>
              || scan.verdict.decision == Waiting(step.name)
              || (scan.verdict.decision.Failure? && scan.verdict.decision.stepName in step.branches
                  && ExhaustedActivity(s.instance, s.definition, scan.verdict.decision.stepName))
  {
    hide TerminalPlan, AttemptBound;
    if k > 0 {
      ScanHalts(s, step, k - 1);
    }
  }

  // --- failures -----------------------------------------------------------

  /** A known activity failure that policy will not retry. */
  predicate ExhaustedActivity(i: Instance, d: Definition, name: string) {
    && name in i.activities && i.activities[name].status.ActivityFailed?
    && !(i.activities[name].retryable && i.activities[name].attempt < AttemptBound(d, name))
  }

  /** A failed child, or a known creation failure that policy will not retry. */
  predicate ExhaustedChild(i: Instance, d: Definition, name: string) {
    && name in i.children
    && (i.children[name].status.ChildHasFailed? ||
        (i.children[name].status.ChildStartHasFailed? &&
         exists step | step in d.steps :: step.name == name && step.kind.StepChild? &&
           !(i.children[name].retryable && i.children[name].attempt < step.retry.maxAttempts)))
  }

  /**
   * A Failed decision is justified: it names a step whose failure is known and
   * not retryable or out of attempts, and everything ordered before is satisfied.
   */
  lemma FailureIsKnown(s: DecisionSpec) returns (m: nat)
    requires Orchestrated(s) && Decide(s).Ok? && Decide(s).value.Failure?
    ensures m < |s.definition.steps| && SatisfiedUpTo(s, m) && !Satisfied(s.instance, s.definition.steps[m])
    ensures var name := Decide(s).value.stepName;
            && (name == s.definition.steps[m].name || name in s.definition.steps[m].branches)
            && (ExhaustedActivity(s.instance, s.definition, name) || ExhaustedChild(s.instance, s.definition, name))
  {
    hide DecideStep, TerminalPlan, ValidDefinition, DecideFrom, Satisfied, Skipped;
    assert SatisfiedUpTo(s, 0);
    m := DecisionPosition(s, 0);
    TurnFailure(s, m);
  }

  lemma TurnFailure(s: DecisionSpec, m: nat)
    requires Orchestrated(s) && m < |s.definition.steps|
    requires DecideStep(s, s.definition.steps[m]).Decided? && DecideStep(s, s.definition.steps[m]).decision.Failure?
    ensures var name := DecideStep(s, s.definition.steps[m]).decision.stepName;
            && (name == s.definition.steps[m].name || name in s.definition.steps[m].branches)
            && (ExhaustedActivity(s.instance, s.definition, name) || ExhaustedChild(s.instance, s.definition, name))
  {
    hide PlanOn, NewActivitySchedule, NewTimerSchedule, NewChildSchedule, ParallelPlan, Winner, TerminalPlan,
         ValidStep, BranchesResolve, StableName, ValidControlFlow;
    var step := s.definition.steps[m];
    if step.kind.StepParallel? {
      hide ScanBranches;
      ScanHalts(s, step, |step.branches|);
    }
    if step.kind.StepActivity? {
      FindStepUnique(s.definition.steps, m);
    }
  }

  // --- waiting ------------------------------------------------------------

  /**
   * The loop never waits at a join: by the time it reaches one, the equal
   * branch set of an earlier parallel step has already succeeded.
   */
  lemma NeverWaitsAtJoin(s: DecisionSpec) returns (m: nat)
    requires Orchestrated(s) && Decide(s).Ok? && Decide(s).value.Waiting?
    ensures m < |s.definition.steps| && SatisfiedUpTo(s, m) && !Satisfied(s.instance, s.definition.steps[m])
    ensures Decide(s).value.stepName == s.definition.steps[m].name && !s.definition.steps[m].kind.StepJoin?
  {
    hide DecideStep, TerminalPlan, ValidDefinition, DecideFrom, Skipped;
    var steps := s.definition.steps;
    assert SatisfiedUpTo(s, 0);
    m := DecisionPosition(s, 0);
    TurnWaits(s, steps[m]);
    if steps[m].kind.StepJoin? {
      JoinIsSatisfied(s, m);
    }
  }

  /** Once everything before a join is satisfied, so is the join. */
  lemma JoinIsSatisfied(s: DecisionSpec, m: nat)
    requires Orchestrated(s) && m < |s.definition.steps| && SatisfiedUpTo(s, m)
    requires s.definition.steps[m].kind.StepJoin?
    ensures Satisfied(s.instance, s.definition.steps[m])
  {
    hide ValidDefinition, Skipped;
    var p := JoinBranchesEqualParallel(s.definition, m);
    ControlTakesItsTurn(s.definition.steps, p);
    assert Satisfied(s.instance, s.definition.steps[p]);
  }

  lemma TurnWaits(s: DecisionSpec, step: StepSpec)
    requires DecideStep(s, step).Decided? && DecideStep(s, step).decision.Waiting?
    ensures DecideStep(s, step).decision.stepName == step.name
  {
    hide PlanOn, NewActivitySchedule, NewTimerSchedule, NewChildSchedule, ParallelPlan, Winner, TerminalPlan;
    if step.kind.StepParallel? {
      hide ScanBranches;
      ScanHalts(s, step, |step.branches|);
    }
  }
}
