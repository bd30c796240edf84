/**
 * What the orchestrator decides, exactly. The first step in order that is not
 * satisfied determines the answer: a known exhausted failure ends the instance,
 * anything already under way is waited for, anything untouched is admitted.
 */
module DecisionExactness {
  import opened Basics
  import opened Definitions
  import opened Events
  import opened Replay
  import opened Transitions
  import opened Planners
  import opened Orchestration
  import opened OrchestrationTheorems
  import opened OrchestrationRuns

  /** Admitted and not yet succeeded. */
  predicate Unsettled(i: Instance, name: string) {
    name in i.activities && !i.activities[name].status.ActivitySucceeded?
  }

  /** The first branch of a parallel step that is admitted and has not succeeded. */
  predicate FirstUnsettled(i: Instance, step: StepSpec, k: nat) {
    && k < |step.branches| && Unsettled(i, step.branches[k])
    && forall j | 0 <= j < k :: !Unsettled(i, step.branches[j])
  }

  /** The step has failed for good, and `name` is what failed. */
  ghost predicate Exhausts(s: DecisionSpec, step: StepSpec, name: string) {
    match step.kind
    case StepActivity => name == step.name && ExhaustedActivity(s.instance, s.definition, name)
    case StepChild => name == step.name && ExhaustedChild(s.instance, s.definition, name)
    case StepParallel =>
      exists k: nat :: FirstUnsettled(s.instance, step, k) && step.branches[k] == name &&
                  ExhaustedActivity(s.instance, s.definition, name)
    case _ => false
  }

  /** The step is under way, or depends on the outside, and has not failed for good. */
  ghost predicate UnderWay(s: DecisionSpec, step: StepSpec) {
    match step.kind
    case StepActivity => step.name in s.instance.activities && !ExhaustedActivity(s.instance, s.definition, step.name)
    case StepChild => step.name in s.instance.children && !ExhaustedChild(s.instance, s.definition, step.name)
    case StepTimer => step.name in s.instance.timers
    case StepSignal | StepApproval => true
    case StepRace => forall b | b in step.branches :: b !in s.instance.signals
    case StepParallel =>
      exists k: nat :: FirstUnsettled(s.instance, step, k) && !ExhaustedActivity(s.instance, s.definition, step.branches[k])
    case _ => false
  }

  /** Nothing of the step has been recorded, and it can be now. */
  predicate Untouched(i: Instance, step: StepSpec) {
    match step.kind
    case StepActivity => step.name !in i.activities
    case StepChild => step.name !in i.children
    case StepTimer => step.name !in i.timers
    case StepRace => exists b | b in step.branches :: b in i.signals
    case StepParallel => forall b | b in step.branches :: b !in i.activities
    case _ => false
  }

  /** Some branches were admitted by someone else, and those have succeeded. */
  predicate Mixed(i: Instance, step: StepSpec) {
    && step.kind.StepParallel? && (forall b | b in step.branches :: !Unsettled(i, b))
    && (exists b | b in step.branches :: b in i.activities) && (exists b | b in step.branches :: b !in i.activities)
  }

  /** The plan a step's decision carries, if any. */
  function PlanOfStep(s: DecisionSpec, step: StepSpec): Option<Transition> {
    var verdict := DecideStep(s, step);
    if verdict.Decided? then PlanOf(verdict.decision) else None
  }

  function Ending(s: DecisionSpec, name: string): Result<Decision> {
    var plan := TerminalPlan(s, InstanceFailed);
    if plan.None? then Err(InvalidOrchestration) else Ok(Failure(name, plan.value))
  }

  function Answer(verdict: Verdict): Result<Decision> {
    if verdict.Decided? then Ok(verdict.decision) else Err(InvalidOrchestration)
  }

  /** An activity step of a valid definition is exhausted exactly when it failed for good or used up its own attempts. */
  lemma ExhaustedMeans(d: Definition, i: Instance, k: nat)
    requires ValidDefinition(d) && k < |d.steps| && d.steps[k].kind.StepActivity?
    ensures ExhaustedActivity(i, d, d.steps[k].name) <==>
            && d.steps[k].name in i.activities
            && var progress := i.activities[d.steps[k].name];
               progress.status.ActivityFailed? && (!progress.retryable || progress.attempt >= d.steps[k].retry.maxAttempts)
  {
    hide ValidStep, BranchesResolve, StableName, ValidControlFlow;
    FindStepUnique(d.steps, k);
  }

  // --- parallel steps -----------------------------------------------------

  lemma {:induction false} ScanFinds(s: DecisionSpec, step: StepSpec, k: nat, n: nat)
    requires FirstUnsettled(s.instance, step, k) && k < n <= |step.branches|
    ensures var name := step.branches[k];
            ScanBranches(s, step, n) ==
            Halt(if ExhaustedActivity(s.instance, s.definition, name) then Fail(s, name) else Decided(Waiting(step.name)))
  {
    hide Fail, AttemptBound;
    if n > k + 1 {
      ScanFinds(s, step, k, n - 1);
    } else {
      var m := ScanCounts(s, step, k);
    }
  }

  /** Without an unsettled branch the scan counts the branches that are not admitted. */
  lemma {:induction false} ScanCounts(s: DecisionSpec, step: StepSpec, n: nat) returns (missing: nat)
    requires n <= |step.branches| && forall j | 0 <= j < n :: !Unsettled(s.instance, step.branches[j])
    ensures ScanBranches(s, step, n) == Missing(missing) && missing <= n
    ensures missing == 0 <==> forall j | 0 <= j < n :: step.branches[j] in s.instance.activities
    ensures missing == n <==> forall j | 0 <= j < n :: step.branches[j] !in s.instance.activities
  {
    hide Fail, AttemptBound;
    missing := 0;
    if n > 0 {
      missing := ScanCounts(s, step, n - 1);
      if step.branches[n - 1] !in s.instance.activities {
        missing := missing + 1;
      }
    }
  }

  lemma {:induction false} FindUnsettled(i: Instance, step: StepSpec, n: nat) returns (k: nat)
    requires n <= |step.branches| && exists j | 0 <= j < n :: Unsettled(i, step.branches[j])
    ensures k < n && FirstUnsettled(i, step, k)
  {
    k := 0;
    if exists j | 0 <= j < n - 1 :: Unsettled(i, step.branches[j]) {
      k := FindUnsettled(i, step, n - 1);
    } else {
      k := n - 1;
    }
  }

  lemma OneFirst(i: Instance, step: StepSpec, j: nat, k: nat)
    requires FirstUnsettled(i, step, j) && FirstUnsettled(i, step, k)
    ensures j == k
  {
    hide Unsettled;
  }

  // --- one step -----------------------------------------------------------

  /** What an unsatisfied step's turn answers, in each of the four ways it can stand. */
  ghost predicate Answers(s: DecisionSpec, step: StepSpec) {
    var answer := Answer(DecideStep(s, step));
    && (forall name | Exhausts(s, step, name) :: answer == Ending(s, name))
    && (UnderWay(s, step) ==> answer == Ok(Waiting(step.name)))
    && (Untouched(s.instance, step) ==>
          && (answer.Ok? <==> exists t :: StepPlan(s, step, t))
          && (answer.Ok? ==> exists t :: StepPlan(s, step, t) &&
                                        answer == Ok(if step.kind.StepRace? then Recorded(step.name, t)
                                                     else Scheduled(step.name, t))))
    && (Mixed(s.instance, step) ==> answer == Err(InvalidOrchestration))
  }

  /** An unsatisfied step stands in one of the four ways; a join cannot. */
  ghost predicate Stands(s: DecisionSpec, step: StepSpec) {
    (exists name :: Exhausts(s, step, name)) || UnderWay(s, step) || Untouched(s.instance, step) || Mixed(s.instance, step)
  }

  lemma ActivityAnswers(s: DecisionSpec, k: nat)
    requires Orchestrated(s) && k < |s.definition.steps| && s.definition.steps[k].kind.StepActivity?
    requires !Satisfied(s.instance, s.definition.steps[k])
    ensures Answers(s, s.definition.steps[k]) && Stands(s, s.definition.steps[k])
  {
    hide NewActivitySchedule, TerminalPlan, ValidStep, BranchesResolve, StableName, ValidControlFlow;
    FindStepUnique(s.definition.steps, k);
    var step := s.definition.steps[k];
    assert Exhausts(s, step, step.name) || UnderWay(s, step) || Untouched(s.instance, step);
    var plan := PlanOfStep(s, step);
    assert plan.Some? && Untouched(s.instance, step) ==> StepPlan(s, step, plan.value);
  }

  lemma ChildAnswers(s: DecisionSpec, k: nat)
    requires Orchestrated(s) && k < |s.definition.steps| && s.definition.steps[k].kind.StepChild?
    requires !Satisfied(s.instance, s.definition.steps[k])
    ensures Answers(s, s.definition.steps[k]) && Stands(s, s.definition.steps[k])
  {
    hide NewChildSchedule, TerminalPlan, ValidStep, BranchesResolve, StableName, ValidControlFlow;
    var step := s.definition.steps[k];
    forall other | other in s.definition.steps && other.name == step.name ensures other == step {
      var j :| 0 <= j < |s.definition.steps| && s.definition.steps[j] == other;
      SameName(s.definition.steps, j, k);
    }
    assert Exhausts(s, step, step.name) || UnderWay(s, step) || Untouched(s.instance, step);
    var plan := PlanOfStep(s, step);
    assert plan.Some? && Untouched(s.instance, step) ==> StepPlan(s, step, plan.value);
  }

  lemma TimerAnswers(s: DecisionSpec, step: StepSpec)
    requires step.kind.StepTimer? && !Satisfied(s.instance, step)
    ensures Answers(s, step) && Stands(s, step)
  {
    hide NewTimerSchedule, TerminalPlan;
    var plan := PlanOfStep(s, step);
    assert plan.Some? && Untouched(s.instance, step) ==> StepPlan(s, step, plan.value);
  }

  lemma RaceAnswers(s: DecisionSpec, step: StepSpec)
    requires step.kind.StepRace? && !Satisfied(s.instance, step)
    ensures Answers(s, step) && Stands(s, step)
  {
    hide PlanOn, TerminalPlan, Winner;
    var k := WinnerIsMinimal(step.branches, s.instance.signals);
    var plan := PlanOfStep(s, step);
    assert plan.Some? && Untouched(s.instance, step) ==> StepPlan(s, step, plan.value);
  }

  lemma ParallelAnswers(s: DecisionSpec, step: StepSpec)
    requires step.kind.StepParallel? && !Satisfied(s.instance, step) && step.branches != []
    ensures Answers(s, step) && Stands(s, step)
  {
    hide ParallelPlan, TerminalPlan, ScanBranches, ExhaustedActivity;
    var n := |step.branches|;
    if exists j | 0 <= j < n :: Unsettled(s.instance, step.branches[j]) {
      var k := FindUnsettled(s.instance, step, n);
      ScanFinds(s, step, k, n);
      forall j | FirstUnsettled(s.instance, step, j) ensures j == k {
        OneFirst(s.instance, step, j, k);
      }
      assert Exhausts(s, step, step.branches[k]) || UnderWay(s, step);
      assert step.branches[k] in s.instance.activities;
    } else {
      var missing := ScanCounts(s, step, n);
      assert forall b | b in step.branches :: !Unsettled(s.instance, b);
      assert forall j | 0 <= j < n :: step.branches[j] in step.branches;
      var plan := PlanOfStep(s, step);
      assert plan.Some? && Untouched(s.instance, step) ==> StepPlan(s, step, plan.value);
    }
  }

  lemma TurnAnswers(s: DecisionSpec, k: nat)
    requires Orchestrated(s) && k < |s.definition.steps| && !Satisfied(s.instance, s.definition.steps[k])
    requires !s.definition.steps[k].kind.StepJoin?
    ensures Answers(s, s.definition.steps[k]) && Stands(s, s.definition.steps[k])
  {
    hide Answers, Stands, DecideStep, BranchesResolve, StableName, ValidControlFlow;
    var step := s.definition.steps[k];
    assert ValidStep(step);
    match step.kind {
      case StepActivity => ActivityAnswers(s, k);
      case StepChild => ChildAnswers(s, k);
      case StepTimer => TimerAnswers(s, step);
      case StepSignal => SignalAnswers(s, step);
      case StepApproval => SignalAnswers(s, step);
      case StepRace => RaceAnswers(s, step);
      case StepParallel => ParallelAnswers(s, step);
    }
  }

  lemma SignalAnswers(s: DecisionSpec, step: StepSpec)
    requires (step.kind.StepSignal? || step.kind.StepApproval?) && !Satisfied(s.instance, step)
    ensures Answers(s, step) && Stands(s, step)
  {
    hide TerminalPlan;
  }

  /**
   * The decision, exactly. Let `m` be the first step in order that is not
   * satisfied. If there is none the instance completes. Otherwise an exhausted
   * failure ends it naming what failed, a step under way is waited for, an
   * untouched step is admitted or recorded whenever its plan can be built, and
   * a parallel step admitted in part is an error; one of these is the case.
   */
  lemma DecisionExactly(s: DecisionSpec) returns (m: nat)
    requires Orchestrated(s) && Decidable(s)
    ensures m <= |s.definition.steps| && SatisfiedUpTo(s, m)
    ensures m == |s.definition.steps| ==>
              Decide(s) == (if TerminalPlan(s, InstanceCompleted).None? then Err(InvalidOrchestration)
                            else Ok(Completion(TerminalPlan(s, InstanceCompleted).value)))
    ensures m < |s.definition.steps| ==>
              var step := s.definition.steps[m];
              && !Skipped(s.definition.steps, step) && !Satisfied(s.instance, step) && !step.kind.StepJoin?
              && Stands(s, step)
              && (forall name | Exhausts(s, step, name) :: Decide(s) == Ending(s, name))
              && (UnderWay(s, step) ==> Decide(s) == Ok(Waiting(step.name)))
              && (Untouched(s.instance, step) ==>
                    && (Decide(s).Ok? <==> exists t :: StepPlan(s, step, t))
                    && (Decide(s).Ok? ==> exists t :: StepPlan(s, step, t) &&
                                                     Decide(s) == Ok(if step.kind.StepRace? then Recorded(step.name, t)
                                                                     else Scheduled(step.name, t))))
              && (Mixed(s.instance, step) ==> Decide(s) == Err(InvalidOrchestration))
  {
    hide DecideStep, TerminalPlan, ValidDefinition, DecideFrom, Skipped, Satisfied, Stands, UnderWay, Untouched, Mixed,
         Exhausts, StepPlan;
    assert SatisfiedUpTo(s, 0);
    m := DecisionPosition(s, 0);
    if m < |s.definition.steps| {
      if s.definition.steps[m].kind.StepJoin? {
        JoinIsSatisfied(s, m);
      }
      TurnAnswers(s, m);
    }
  }

  /** A parallel request that names every branch once, with a valid key and an input within limits, is planned. */
  lemma ParallelRequestPlanned(s: DecisionSpec, step: StepSpec)
    requires DistinctBranches(s.branches) && |s.branches| == |step.branches|
    requires forall b | b in step.branches ::
               && (exists r | r in s.branches :: r.stepName == b)
               && FindStep(s.definition.steps, b, StepActivity).Some?
    requires forall r | r in s.branches && FindStep(s.definition.steps, r.stepName, StepActivity).Some? ::
               ValidIdent(r.key) && r.input.Size() <= FindStep(s.definition.steps, r.stepName, StepActivity).value.inputLimit
    ensures forall b | b in step.branches :: BranchReady(s, b)
    ensures ParallelPlan(s, step) ==
            PlanOn(s.transitionID, s.instance, BranchEvents(s, step.branches), BranchWorks(s, step.branches))
  {
    hide PlanOn, ValidIdent, FindStep, BranchEvents, BranchWorks;
  }

  /** A parallel plan exists only for a request with exactly one entry for every branch. */
  lemma ParallelRequestExact(s: DecisionSpec, step: StepSpec)
    requires ParallelPlan(s, step).Some?
    ensures DistinctBranches(s.branches) && |s.branches| == |step.branches|
    ensures forall b | b in step.branches :: exists r | r in s.branches :: r.stepName == b
  {
    hide PlanOn, BranchEvents, BranchWorks;
    forall b | b in step.branches ensures exists r | r in s.branches :: r.stepName == b {
      assert BranchReady(s, b);
    }
  }
}
