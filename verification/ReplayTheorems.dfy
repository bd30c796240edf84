/**
 * Whole-history consequences of replay: what each step's events spell, how far
 * apart attempts are, and what the audit trail says.
 */
module ReplayTheorems {
  import opened Basics
  import opened Definitions
  import opened Backoff
  import opened Events
  import opened Replay
  import opened ReplayFrames
  import opened AttemptProtocol

  /** The three attempt-driven families of events. */
  datatype Family = OfActivity | OfCompensation | OfChild

  function AttemptToken(phase: AttemptKind, e: HistoryEvent): Token {
    match phase
    case AttemptAdmitted => Admitted(e.occurredAt)
    case AttemptStarted => Start(e.occurredAt, e.attempt)
    case AttemptSucceeded => Success(e.occurredAt, e.attempt)
    case AttemptFailed => Failure(e.occurredAt, e.attempt, e.retryable)
    case AttemptUnknown => Uncertain(e.occurredAt, e.attempt)
    case AttemptRetry => Retry(e.occurredAt, e.attempt, e.dueAt)
  }

  /** The token an event contributes to the word of one step. */
  function TokenOf(f: Family, name: string, e: HistoryEvent): Option<Token> {
    if e.stepName != name then None
    else
      match f
      case OfActivity => if e.kind.Activity? then Some(AttemptToken(e.kind.phase, e)) else None
      case OfCompensation =>
        if e.kind.Compensation? then Some(AttemptToken(e.kind.phase, e))
        else if e.kind.CompensationManuallyResolved? then Some(Resolved(e.occurredAt))
        else None
      case OfChild => if e.kind.ChildStart? then Some(AttemptToken(e.kind.phase, e)) else None
  }

  /** Everything a history says about the attempts of one step, in order. */
  function WordOf(f: Family, name: string, h: seq<HistoryEvent>): seq<Token> {
    if h == [] then []
    else
      var token := TokenOf(f, name, h[|h| - 1]);
      WordOf(f, name, h[..|h| - 1]) + if token.Some? then [token.value] else []
  }

  lemma WordSnoc(f: Family, name: string, h: seq<HistoryEvent>)
    requires h != []
    ensures TokenOf(f, name, h[|h| - 1]).None? ==> WordOf(f, name, h) == WordOf(f, name, h[..|h| - 1])
    ensures TokenOf(f, name, h[|h| - 1]).Some? ==>
              WordOf(f, name, h) == WordOf(f, name, h[..|h| - 1]) + [TokenOf(f, name, h[|h| - 1]).value]
  {
    hide TokenOf;
  }

  function ActivityPhase(current: Option<ActivityProgress>): Phase {
    match current
    case None => Absent
    case Some(p) =>
      match p.status
      case ActivityReady => Ready
      case ActivityRunning => Phase.Running(p.attempt)
      case ActivitySucceeded => Succeeded(p.attempt)
      case ActivityFailed => Phase.Failed(p.attempt, p.retryable)
      case ActivityUnknown => Unknown(p.attempt)
      case ActivityRetryWaiting => Waiting(p.attempt, p.dueAt)
  }

  function CompensationPhase(current: Option<CompensationProgress>): Phase {
    match current
    case None => Absent
    case Some(p) =>
      match p.status
      case CompensationReady => Ready
      case CompensationRunning => Phase.Running(p.attempt)
      case CompensationSucceeded => Succeeded(p.attempt)
      case CompensationFailed => Phase.Failed(p.attempt, p.retryable)
      case CompensationUnknown => Unknown(p.attempt)
      case CompensationRetryWaiting => Waiting(p.attempt, p.dueAt)
      case CompensationResolved => Settled(p.attempt)
  }

  /** Phase of a child whose outcome is still open. */
  function ChildPhase(current: Option<ChildProgress>): Phase {
    match current
    case None => Absent
    case Some(p) =>
      match p.status
      case ChildIsScheduled => Ready
      case ChildStartRunning => Phase.Running(p.attempt)
      case ChildActive => Succeeded(p.attempt)
      case ChildStartHasFailed => Phase.Failed(p.attempt, p.retryable)
      case ChildStartIsUnknown => Unknown(p.attempt)
      case ChildRetryWaiting => Waiting(p.attempt, p.dueAt)
      case ChildSucceeded | ChildHasFailed => Settled(p.attempt)
  }

  predicate ChildSettled(current: Option<ChildProgress>) {
    current.Some? && (current.value.status.ChildSucceeded? || current.value.status.ChildHasFailed?)
  }

  predicate ActivityAgrees(current: Option<ActivityProgress>, p: Phase) {
    p == ActivityPhase(current) && (p.Ready? ==> current.value.attempt == 0)
  }

  predicate CompensationAgrees(current: Option<CompensationProgress>, p: Phase) {
    p == CompensationPhase(current) && (p.Ready? ==> current.value.attempt == 0)
  }

  /** Phases in which a child's own result may be reported. */
  predicate ReportablePhase(attempt: Uint32, p: Phase) {
    (p.Ready? && attempt == 0) || p == Phase.Running(attempt) || p == Succeeded(attempt) || p == Unknown(attempt)
  }

  predicate ChildAgrees(current: Option<ChildProgress>, p: Phase) {
    if ChildSettled(current) then ReportablePhase(current.value.attempt, p)
    else p == ChildPhase(current) && (p.Ready? ==> current.value.attempt == 0)
  }

  /** The replayed progress of a step is what the protocol machine says. */
  predicate Agrees(f: Family, i: Instance, name: string, p: Phase) {
    match f
    case OfActivity => ActivityAgrees(Lookup(i.activities, name), p)
    case OfCompensation => CompensationAgrees(Lookup(i.compensations, name), p)
    case OfChild => ChildAgrees(Lookup(i.children, name), p)
  }

  // --- one event ----------------------------------------------------------

  lemma ActivityStep(step: StepSpec, status: InstanceStatus, current: Option<ActivityProgress>, phase: AttemptKind,
                     e: HistoryEvent, p: Phase)
    requires ActivityNext(step, status, current, phase, e).Some? && ActivityAgrees(current, p)
    requires !phase.AttemptAdmitted? ==> e.attempt > 0
    ensures Advance(p, AttemptToken(phase, e)).Some?
    ensures ActivityAgrees(ActivityNext(step, status, current, phase, e), Advance(p, AttemptToken(phase, e)).value)
    ensures FollowsPolicy(AttemptToken(phase, e), step.retry)
  {
    hide RetryDelay;
  }

  lemma CompensationStep(policy: CompensationSpec, status: InstanceStatus, activity: Option<ActivityProgress>,
                         current: Option<CompensationProgress>, phase: AttemptKind, e: HistoryEvent, p: Phase)
    requires CompensationNext(policy, status, activity, current, phase, e).Some? && CompensationAgrees(current, p)
    requires !phase.AttemptAdmitted? ==> e.attempt > 0
    ensures Advance(p, AttemptToken(phase, e)).Some?
    ensures CompensationAgrees(CompensationNext(policy, status, activity, current, phase, e),
                               Advance(p, AttemptToken(phase, e)).value)
    ensures FollowsPolicy(AttemptToken(phase, e), policy.retry)
  {
    hide RetryDelay;
  }

  lemma ChildStep(registry: Registry, step: StepSpec, current: Option<ChildProgress>, phase: AttemptKind,
                  e: HistoryEvent, p: Phase)
    requires ChildStartNext(registry, step, current, phase, e).Some? && ChildAgrees(current, p)
    requires !phase.AttemptAdmitted? ==> e.attempt > 0
    ensures Advance(p, AttemptToken(phase, e)).Some?
    ensures ChildAgrees(ChildStartNext(registry, step, current, phase, e), Advance(p, AttemptToken(phase, e)).value)
    ensures FollowsPolicy(AttemptToken(phase, e), step.retry)
  {
    hide RetryDelay, CheckReference;
  }

  lemma AttemptFieldsPositive(e: HistoryEvent)
    requires ValidEvent(e)
    ensures e.kind.Activity? && !e.kind.phase.AttemptAdmitted? ==> e.attempt > 0
    ensures e.kind.Compensation? && !e.kind.phase.AttemptAdmitted? ==> e.attempt > 0
    ensures e.kind.ChildStart? && !e.kind.phase.AttemptAdmitted? ==> e.attempt > 0
  {
  }

  /** The retry policy the pinned definition gives a step's family. */
  function PolicyOf(registry: Registry, f: Family, definition: DefinitionRef, name: string): Option<RetryPolicy> {
    var steps := CurrentSteps(registry, definition);
    match f
    case OfActivity =>
      var step := FindStep(steps, name, StepActivity);
      if step.None? then None else Some(step.value.retry)
    case OfCompensation =>
      var step := FindStep(steps, name, StepActivity);
      if step.None? || step.value.compensation.None? then None else Some(step.value.compensation.value.retry)
    case OfChild =>
      var step := FindStep(steps, name, StepChild);
      if step.None? then None else Some(step.value.retry)
  }

  /** One accepted event moves the step's machine by exactly its token, or not at all. */
  lemma AgreementKept(registry: Registry, f: Family, i: Instance, e: HistoryEvent, name: string, p: Phase)
    requires i.sequence != 0 && ValidEvent(e) && Apply(registry, i, e).Ok? && Agrees(f, i, name, p)
    ensures var token := TokenOf(f, name, e);
            var j := Apply(registry, i, e).value;
            if token.None? then Agrees(f, j, name, p)
            else
              && Advance(p, token.value).Some? && Agrees(f, j, name, Advance(p, token.value).value)
              && PolicyOf(registry, f, i.definition, name).Some?
              && FollowsPolicy(token.value, PolicyOf(registry, f, i.definition, name).value)
  {
    AttemptFieldsPositive(e);
    match f
    case OfActivity => ActivityAgreementKept(registry, i, e, name, p);
    case OfCompensation => CompensationAgreementKept(registry, i, e, name, p);
    case OfChild => ChildAgreementKept(registry, i, e, name, p);
  }

  lemma ActivityAgreementKept(registry: Registry, i: Instance, e: HistoryEvent, name: string, p: Phase)
    requires i.sequence != 0 && Apply(registry, i, e).Ok? && ActivityAgrees(Lookup(i.activities, name), p)
    requires e.kind.Activity? && !e.kind.phase.AttemptAdmitted? ==> e.attempt > 0
    ensures var token := TokenOf(OfActivity, name, e);
            var now := Lookup(Apply(registry, i, e).value.activities, name);
            if token.None? then ActivityAgrees(now, p)
            else
              && Advance(p, token.value).Some? && ActivityAgrees(now, Advance(p, token.value).value)
              && PolicyOf(registry, OfActivity, i.definition, name).Some?
              && FollowsPolicy(token.value, PolicyOf(registry, OfActivity, i.definition, name).value)
  {
    hide Apply, ActivityNext, ActivityAgrees, Advance, FollowsPolicy, AttemptToken;
    ApplyActivities(registry, i, e);
    if e.kind.Activity? && e.stepName == name {
      var step := FindStep(CurrentSteps(registry, i.definition), name, StepActivity);
      ActivityStep(step.value, i.status, Lookup(i.activities, name), e.kind.phase, e, p);
    }
  }

  lemma CompensationAgreementKept(registry: Registry, i: Instance, e: HistoryEvent, name: string, p: Phase)
    requires i.sequence != 0 && Apply(registry, i, e).Ok? && CompensationAgrees(Lookup(i.compensations, name), p)
    requires e.kind.Compensation? && !e.kind.phase.AttemptAdmitted? ==> e.attempt > 0
    ensures var token := TokenOf(OfCompensation, name, e);
            var now := Lookup(Apply(registry, i, e).value.compensations, name);
            if token.None? then CompensationAgrees(now, p)
            else
              && Advance(p, token.value).Some? && CompensationAgrees(now, Advance(p, token.value).value)
              && PolicyOf(registry, OfCompensation, i.definition, name).Some?
              && FollowsPolicy(token.value, PolicyOf(registry, OfCompensation, i.definition, name).value)
  {
    hide Apply, CompensationNext, CompensationAgrees, ResolutionNext, Advance, FollowsPolicy, AttemptToken;
    ApplyCompensations(registry, i, e);
    if IsCompensationEvent(e.kind) && e.stepName == name {
      var step := FindStep(CurrentSteps(registry, i.definition), name, StepActivity);
      var policy := step.value.compensation.value;
      if e.kind.Compensation? {
        CompensationStep(policy, i.status, Lookup(i.activities, name), Lookup(i.compensations, name), e.kind.phase, e, p);
      } else {
        ResolutionStep(policy, Lookup(i.compensations, name), e, p);
      }
    }
  }

  lemma ResolutionStep(policy: CompensationSpec, current: Option<CompensationProgress>, e: HistoryEvent, p: Phase)
    requires ResolutionNext(policy, current, e).Some? && CompensationAgrees(current, p)
    ensures Advance(p, Resolved(e.occurredAt)).Some?
    ensures CompensationAgrees(ResolutionNext(policy, current, e), Advance(p, Resolved(e.occurredAt)).value)
    ensures FollowsPolicy(Resolved(e.occurredAt), policy.retry)
  {
  }

  /** A child's result comes in a reportable phase, which it leaves as it is. */
  lemma ChildResultStep(step: StepSpec, current: Option<ChildProgress>, e: HistoryEvent, p: Phase)
    requires ChildOutcomeNext(step, current, e).Some? && ChildAgrees(current, p)
    ensures ChildAgrees(ChildOutcomeNext(step, current, e), p)
  {
  }

  lemma ChildAgreementKept(registry: Registry, i: Instance, e: HistoryEvent, name: string, p: Phase)
    requires i.sequence != 0 && Apply(registry, i, e).Ok? && ChildAgrees(Lookup(i.children, name), p)
    requires e.kind.ChildStart? && !e.kind.phase.AttemptAdmitted? ==> e.attempt > 0
    ensures var token := TokenOf(OfChild, name, e);
            var now := Lookup(Apply(registry, i, e).value.children, name);
            if token.None? then ChildAgrees(now, p)
            else
              && Advance(p, token.value).Some? && ChildAgrees(now, Advance(p, token.value).value)
              && PolicyOf(registry, OfChild, i.definition, name).Some?
              && FollowsPolicy(token.value, PolicyOf(registry, OfChild, i.definition, name).value)
  {
    hide Apply, ChildStartNext, Advance, FollowsPolicy, AttemptToken, ChildPhase;
    ApplyChildren(registry, i, e);
    if e.kind.ChildStart? && e.stepName == name {
      var step := FindStep(CurrentSteps(registry, i.definition), name, StepChild);
      ChildStep(registry, step.value, Lookup(i.children, name), e.kind.phase, e, p);
    } else if IsChildEvent(e.kind) && e.stepName == name {
      var step := FindStep(CurrentSteps(registry, i.definition), name, StepChild);
      ChildResultStep(step.value, Lookup(i.children, name), e, p);
    }
  }

  // --- whole histories ----------------------------------------------------

  /** In every accepted history the events of a step drive its protocol machine to the replayed progress. */
  lemma {:induction false} HistoryDrivesMachine(registry: Registry, f: Family, h: seq<HistoryEvent>, name: string)
    requires h != [] && ValidEvents(h) && ApplyAll(registry, BLANK, h).Ok?
    ensures Run(Absent, WordOf(f, name, h)).Some?
    ensures Agrees(f, ApplyAll(registry, BLANK, h).value, name, Run(Absent, WordOf(f, name, h)).value)
  {
    hide Apply, ValidEvent, Run, Agrees, Advance, WordOf, TokenOf;
    var init, last := h[..|h| - 1], h[|h| - 1];
    assert h == init + [last];
    WordSnoc(f, name, h);
    if init == [] {
      assert ApplyAll(registry, BLANK, init) == Ok(BLANK);
      StartAgrees(registry, f, last, name);
    } else {
      HistoryDrivesMachine(registry, f, init, name);
      AcceptedShape(registry, init);
      AgreementKept(registry, f, ApplyAll(registry, BLANK, init).value, last, name, Run(Absent, WordOf(f, name, init)).value);
      if TokenOf(f, name, last).Some? {
        RunSnoc(Absent, WordOf(f, name, init), TokenOf(f, name, last).value);
      }
    }
  }

  lemma StartAgrees(registry: Registry, f: Family, e: HistoryEvent, name: string)
    requires Apply(registry, BLANK, e).Ok?
    ensures WordOf(f, name, []) == [] && Run(Absent, []) == Some(Absent) && TokenOf(f, name, e).None?
    ensures Agrees(f, Apply(registry, BLANK, e).value, name, Absent)
  {
    hide Apply;
    StartHeader(registry, e);
  }

  /**
   * The attempt law: in any accepted history each activity, compensation and
   * child start spells one word of the attempt grammar.
   */
  lemma AttemptGrammar(registry: Registry, f: Family, h: seq<HistoryEvent>, name: string)
    requires h != [] && ValidEvents(h) && ReplayHistory(registry, h).Ok?
    ensures Word(WordOf(f, name, h))
  {
    HistoryDrivesMachine(registry, f, h, name);
    MachineAcceptsExactlyWords(WordOf(f, name, h));
  }

  /** Where an event's token sits in its word. */
  lemma {:induction false} TokenPosition(f: Family, name: string, h: seq<HistoryEvent>, k: nat)
    requires k < |h| && TokenOf(f, name, h[k]).Some?
    ensures |WordOf(f, name, h[..k])| < |WordOf(f, name, h)|
    ensures WordOf(f, name, h)[|WordOf(f, name, h[..k])|] == TokenOf(f, name, h[k]).value
  {
    hide TokenOf;
    if k < |h| - 1 {
      var init := h[..|h| - 1];
      TokenPosition(f, name, init, k);
      assert init[..k] == h[..k];
    }
  }

  lemma {:induction false} WordGrows(f: Family, name: string, h: seq<HistoryEvent>, a: nat, b: nat)
    requires a <= b <= |h|
    ensures |WordOf(f, name, h[..a])| <= |WordOf(f, name, h[..b])|
    decreases b - a
  {
    hide TokenOf;
    if a < b {
      WordGrows(f, name, h, a, b - 1);
      assert h[..b][..b - 1] == h[..b - 1];
    }
  }

  /** Two events of one word keep their order in it. */
  lemma TokenOrder(f: Family, name: string, h: seq<HistoryEvent>, a: nat, b: nat)
    requires a < b < |h| && TokenOf(f, name, h[a]).Some?
    ensures |WordOf(f, name, h[..a])| < |WordOf(f, name, h[..b])|
  {
    hide TokenOf;
    assert h[..a + 1][..a] == h[..a];
    assert WordOf(f, name, h[..a + 1]) == WordOf(f, name, h[..a]) + [TokenOf(f, name, h[a]).value];
    WordGrows(f, name, h, a + 1, b);
  }

  /** The event a token came from. */
  lemma {:induction false} TokenOrigin(f: Family, name: string, h: seq<HistoryEvent>, j: nat) returns (k: nat)
    requires j < |WordOf(f, name, h)|
    ensures k < |h| && TokenOf(f, name, h[k]) == Some(WordOf(f, name, h)[j]) && |WordOf(f, name, h[..k])| == j
  {
    hide TokenOf;
    var init := h[..|h| - 1];
    if j < |WordOf(f, name, init)| {
      k := TokenOrigin(f, name, init, j);
      assert init[..k] == h[..k];
    } else {
      k := |h| - 1;
    }
  }

  predicate IsStartOf(f: Family, name: string, e: HistoryEvent) {
    TokenOf(f, name, e).Some? && TokenOf(f, name, e).value.Start?
  }

  predicate IsOutcomeOf(f: Family, name: string, e: HistoryEvent, n: nat) {
    TokenOf(f, name, e).Some? && IsOutcome(TokenOf(f, name, e).value, n)
  }

  lemma StartAttempt(f: Family, name: string, e: HistoryEvent)
    requires IsStartOf(f, name, e)
    ensures TokenOf(f, name, e).value.n == e.attempt && TokenOf(f, name, e).value.at == e.occurredAt
  {
  }

  /** Two later tokens of one step, located in that step's rounds. */
  lemma RoundPositions(registry: Registry, f: Family, h: seq<HistoryEvent>, name: string, a: nat, b: nat)
    returns (rounds: seq<Token>, x: nat, y: nat)
    requires h != [] && ValidEvents(h) && ApplyAll(registry, BLANK, h).Ok? && a < b < |h|
    requires TokenOf(f, name, h[a]).Some? && TokenOf(f, name, h[b]).Some?
    requires !TokenOf(f, name, h[a]).value.Admitted?
    ensures Rounds(rounds, 1, None) && x < y < |rounds|
    ensures rounds[x] == TokenOf(f, name, h[a]).value && rounds[y] == TokenOf(f, name, h[b]).value
  {
    var word := WordOf(f, name, h);
    hide TokenOf, WordOf, ApplyAll, ValidEvent, Rounds;
    HistoryDrivesMachine(registry, f, h, name);
    MachineAcceptsExactlyWords(word);
    TokenPosition(f, name, h, a);
    TokenPosition(f, name, h, b);
    TokenOrder(f, name, h, a, b);
    rounds, x, y := word[1..], |WordOf(f, name, h[..a])| - 1, |WordOf(f, name, h[..b])| - 1;
  }

  /** Attempt numbers strictly grow: no attempt of a step is ever started twice. */
  lemma StartsNeverRepeat(registry: Registry, f: Family, h: seq<HistoryEvent>, name: string, a: nat, b: nat)
    requires h != [] && ValidEvents(h) && ApplyAll(registry, BLANK, h).Ok?
    requires a < b < |h| && IsStartOf(f, name, h[a]) && IsStartOf(f, name, h[b])
    ensures h[a].attempt < h[b].attempt
  {
    hide TokenOf, ApplyAll, ValidEvent, Rounds;
    var rounds, x, y := RoundPositions(registry, f, h, name, a, b);
    StartAttempt(f, name, h[a]);
    StartAttempt(f, name, h[b]);
    StartsIncrease(rounds, 1, None, x, y);
  }

  /** No attempt ever gets two outcome events. */
  lemma OneOutcomePerAttempt(registry: Registry, f: Family, h: seq<HistoryEvent>, name: string, a: nat, b: nat, n: nat)
    requires h != [] && ValidEvents(h) && ApplyAll(registry, BLANK, h).Ok?
    requires a < b < |h| && IsOutcomeOf(f, name, h[a], n)
    ensures !IsOutcomeOf(f, name, h[b], n)
  {
    hide TokenOf, ApplyAll, ValidEvent, Rounds;
    if IsOutcomeOf(f, name, h[b], n) {
      var rounds, x, y := RoundPositions(registry, f, h, name, a, b);
      OutcomesUnique(rounds, 1, None, x, y, n);
    }
  }

  // --- spacing ------------------------------------------------------------

  lemma {:induction false} WordTimesOrdered(f: Family, name: string, h: seq<HistoryEvent>, x: nat, y: nat)
    requires forall k | 0 < k < |h| :: h[k - 1].occurredAt <= h[k].occurredAt
    requires x < y < |WordOf(f, name, h)|
    ensures WordOf(f, name, h)[x].at <= WordOf(f, name, h)[y].at
  {
    var a := TokenOrigin(f, name, h, x);
    var b := TokenOrigin(f, name, h, y);
    if b < a {
      TokenOrder(f, name, h, b, a);
    }
    TimesNeverDecrease(h, a, b);
  }

  predicate WordWithinPolicy(policy: Option<RetryPolicy>, word: seq<Token>) {
    if policy.None? then word == [] else AllFollowPolicy(word, policy.value)
  }

  lemma {:induction false} WordFollowsPolicy(registry: Registry, f: Family, name: string, h: seq<HistoryEvent>)
    requires h != [] && ValidEvents(h) && ApplyAll(registry, BLANK, h).Ok? && MigrationFree(h)
    ensures WordWithinPolicy(PolicyOf(registry, f, h[0].definition, name), WordOf(f, name, h))
  {
    hide Apply, ValidEvent, PolicyOf, TokenOf, Agrees, FollowsPolicy, WordOf, Run, Advance;
    var init, last := h[..|h| - 1], h[|h| - 1];
    assert h == init + [last];
    WordSnoc(f, name, h);
    if init == [] {
      assert ApplyAll(registry, BLANK, init) == Ok(BLANK);
      StartAgrees(registry, f, last, name);
    } else {
      WordFollowsPolicy(registry, f, name, init);
      PinnedByStart(registry, init);
      HistoryDrivesMachine(registry, f, init, name);
      AgreementKept(registry, f, ApplyAll(registry, BLANK, init).value, last, name, Run(Absent, WordOf(f, name, init)).value);
    }
  }

  lemma PinnedByStart(registry: Registry, h: seq<HistoryEvent>)
    requires h != [] && ValidEvents(h) && ApplyAll(registry, BLANK, h).Ok? && MigrationFree(h)
    ensures ApplyAll(registry, BLANK, h).value.definition == h[0].definition
    ensures ApplyAll(registry, BLANK, h).value.sequence == |h|
  {
    hide Apply, ValidEvent;
    AcceptedShape(registry, h);
    AcceptedDefinition(registry, h);
    MigrationFreePin(h);
  }

  /**
   * Backoff over whole histories: in every accepted migration-free history,
   * attempt n of a step starts no earlier than its first attempt plus the
   * first n-1 delays of its policy, and n is within the policy's bound.
   */
  lemma AttemptsSpaced(registry: Registry, f: Family, h: seq<HistoryEvent>, name: string, b: nat)
    returns (first: nat, policy: RetryPolicy)
    requires h != [] && ValidEvents(h) && ApplyAll(registry, BLANK, h).Ok? && MigrationFree(h)
    requires b < |h| && IsStartOf(f, name, h[b])
    ensures PolicyOf(registry, f, h[0].definition, name) == Some(policy)
    ensures first <= b && IsStartOf(f, name, h[first]) && h[first].attempt == 1
    ensures 1 <= h[b].attempt <= policy.maxAttempts
    ensures h[b].occurredAt >= h[first].occurredAt + SumDelays(policy, 1, h[b].attempt)
  {
    hide ApplyAll, ValidEvent, PolicyOf, TokenOf, Rounds, SumDelays, FollowsPolicy, RetryDelay;
    var word := WordOf(f, name, h);
    TokenPosition(f, name, h, b);
    HistoryDrivesMachine(registry, f, h, name);
    MachineAcceptsExactlyWords(word);
    AcceptedShape(registry, h);
    WordFollowsPolicy(registry, f, name, h);
    assert PolicyOf(registry, f, h[0].definition, name).Some?;
    policy := PolicyOf(registry, f, h[0].definition, name).value;
    forall x, y | 0 <= x < y < |word| ensures word[x].at <= word[y].at {
      WordTimesOrdered(f, name, h, x, y);
    }
    assert TimesOrdered(word);
    var position := |WordOf(f, name, h[..b])|;
    AttemptsAreSpaced(word, policy, position);
    first := TokenOrigin(f, name, h, 1);
    StartAttempt(f, name, h[first]);
    StartAttempt(f, name, h[b]);
    StartPositive(word, position);
    if b < first {
      TokenOrder(f, name, h, b, first);
    }
  }

  lemma StartPositive(word: seq<Token>, x: nat)
    requires Word(word) && x < |word| && word[x].Start?
    ensures x >= 1 && word[x].n >= 1
  {
    assert x >= 1;
    assert word[1..][x - 1] == word[x];
    StartAtLeast(word[1..], 1, None, x - 1);
  }

  // --- compensations ------------------------------------------------------

  predicate CompensationsFollowSuccess(i: Instance) {
    forall name | name in i.compensations :: name in i.activities && i.activities[name].status.ActivitySucceeded?
  }

  lemma SuccessIsFinal(step: StepSpec, status: InstanceStatus, current: Option<ActivityProgress>, phase: AttemptKind,
                       e: HistoryEvent)
    requires current.Some? && current.value.status.ActivitySucceeded?
    ensures ActivityNext(step, status, current, phase, e).None?
  {
  }

  lemma FirstCompensation(registry: Registry, i: Instance, e: HistoryEvent)
    requires IsCompensationEvent(e.kind) && ApplyCompensation(registry, i, e).Some? && e.stepName !in i.compensations
    ensures e.stepName in i.activities && i.activities[e.stepName].status.ActivitySucceeded?
  {
  }

  lemma CompensationsFollowSuccessKept(registry: Registry, i: Instance, e: HistoryEvent)
    requires i.sequence != 0 && Apply(registry, i, e).Ok? && CompensationsFollowSuccess(i)
    ensures CompensationsFollowSuccess(Apply(registry, i, e).value)
  {
    hide Apply, ApplyCompensation, ActivityNext;
    ApplyActivities(registry, i, e);
    ApplyCompensations(registry, i, e);
    if e.kind.Activity? && e.stepName in i.compensations {
      var step := FindStep(CurrentSteps(registry, i.definition), e.stepName, StepActivity);
      SuccessIsFinal(step.value, i.status, Lookup(i.activities, e.stepName), e.kind.phase, e);
    }
    if IsCompensationEvent(e.kind) && e.stepName !in i.compensations {
      FirstCompensation(registry, i, e);
    }
  }

  /** In every accepted history, migrated or not, only succeeded activities have a compensation. */
  lemma {:induction false} OnlySucceededActivitiesCompensated(registry: Registry, h: seq<HistoryEvent>)
    requires h != [] && ValidEvents(h) && ApplyAll(registry, BLANK, h).Ok?
    ensures CompensationsFollowSuccess(ApplyAll(registry, BLANK, h).value)
  {
    hide Apply, ValidEvent;
    var init, last := h[..|h| - 1], h[|h| - 1];
    assert h == init + [last];
    if init == [] {
      assert ApplyAll(registry, BLANK, init) == Ok(BLANK);
      StartHeader(registry, last);
    } else {
      OnlySucceededActivitiesCompensated(registry, init);
      AcceptedShape(registry, init);
      CompensationsFollowSuccessKept(registry, ApplyAll(registry, BLANK, init).value, last);
    }
  }

  lemma ResolutionKept(registry: Registry, i: Instance, e: HistoryEvent, name: string)
    requires i.sequence != 0 && Apply(registry, i, e).Ok?
    requires name in i.compensations && i.compensations[name].status.CompensationResolved?
    ensures name in Apply(registry, i, e).value.compensations
    ensures Apply(registry, i, e).value.compensations[name] == i.compensations[name]
  {
    hide Apply;
    ApplyCompensations(registry, i, e);
  }

  lemma ResolutionRecorded(registry: Registry, i: Instance, e: HistoryEvent)
    requires i.sequence != 0 && Apply(registry, i, e).Ok? && e.kind.CompensationManuallyResolved?
    ensures e.stepName in Apply(registry, i, e).value.compensations
    ensures Apply(registry, i, e).value.compensations[e.stepName].status.CompensationResolved?
  {
    hide Apply;
    ApplyCompensations(registry, i, e);
  }

  /** A manually resolved compensation stays resolved, whatever follows it: it never counts as succeeded. */
  lemma {:induction false} ResolvedNeverSucceeds(registry: Registry, h: seq<HistoryEvent>, k: nat)
    requires h != [] && ValidEvents(h) && ApplyAll(registry, BLANK, h).Ok?
    requires k < |h| && h[k].kind.CompensationManuallyResolved?
    ensures h[k].stepName in ApplyAll(registry, BLANK, h).value.compensations
    ensures ApplyAll(registry, BLANK, h).value.compensations[h[k].stepName].status.CompensationResolved?
  {
    hide Apply, ValidEvent;
    var init, last := h[..|h| - 1], h[|h| - 1];
    assert h == init + [last];
    AcceptedShape(registry, h);
    if init != [] {
      AcceptedShape(registry, init);
      if k < |init| {
        ResolvedNeverSucceeds(registry, init, k);
        ResolutionKept(registry, ApplyAll(registry, BLANK, init).value, last, h[k].stepName);
      } else {
        ResolutionRecorded(registry, ApplyAll(registry, BLANK, init).value, last);
      }
    }
  }

  // --- operator audit -----------------------------------------------------

  /** The commands a history records, in order. */
  function AuditTrail(h: seq<HistoryEvent>): seq<OperatorRecord> {
    if h == [] then []
    else
      var last := h[|h| - 1];
      AuditTrail(h[..|h| - 1]) +
      if last.kind.OperatorCommandRecorded? && DecodeOperatorAudit(last.data).Some? then [RecordOf(last)] else []
  }

  /** Every audit record but possibly the last event is directly followed by its action. */
  predicate AuditsPaired(h: seq<HistoryEvent>) {
    forall k | 0 <= k < |h| - 1 ::
      h[k].kind.OperatorCommandRecorded? ==>
        h[k].data.AuditDocument? && CompletesAction(h[k].data.action, h[k + 1].kind)
  }

  lemma {:induction false} AuditsAreTracked(registry: Registry, h: seq<HistoryEvent>)
    requires h != [] && ValidEvents(h) && ApplyAll(registry, BLANK, h).Ok?
    ensures var i := ApplyAll(registry, BLANK, h).value;
            var last := h[|h| - 1];
            && i.operatorActions == AuditTrail(h) && AuditsPaired(h)
            && (last.kind.OperatorCommandRecorded? ==>
                  DecodeOperatorAudit(last.data).Some? && i.pendingOperator == last.data.action)
            && (!last.kind.OperatorCommandRecorded? ==> i.pendingOperator.NoAction?)
  {
    hide Apply, ValidEvent, DecodeOperatorAudit, CompletesAction;
    var init, last := h[..|h| - 1], h[|h| - 1];
    assert h == init + [last];
    if init == [] {
      assert ApplyAll(registry, BLANK, init) == Ok(BLANK);
      StartHeader(registry, last);
      assert AuditTrail(init) == [];
    } else {
      AuditsAreTracked(registry, init);
      AcceptedShape(registry, init);
      ApplyAudit(registry, ApplyAll(registry, BLANK, init).value, last);
      DecodedAction(init[|init| - 1]);
      forall k | 0 <= k < |h| - 1 && h[k].kind.OperatorCommandRecorded?
        ensures h[k].data.AuditDocument? && CompletesAction(h[k].data.action, h[k + 1].kind)
      {
        if k < |init| - 1 {
          assert h[k] == init[k] && h[k + 1] == init[k + 1];
        }
      }
    }
  }

  lemma DecodedAction(e: HistoryEvent)
    ensures DecodeOperatorAudit(e.data).Some? ==> e.data.AuditDocument? && !e.data.action.NoAction?
  {
  }

  /**
   * Audit law: whatever replays, each operator audit is immediately followed by
   * one event of its action's kind, none is left dangling at the end, and the
   * replayed audit trail lists exactly the recorded commands in order.
   */
  lemma AuditLaw(registry: Registry, h: seq<HistoryEvent>)
    requires ValidEvents(h) && ReplayHistory(registry, h).Ok?
    ensures AuditsPaired(h) && !h[|h| - 1].kind.OperatorCommandRecorded?
    ensures ReplayHistory(registry, h).value.operatorActions == AuditTrail(h)
  {
    hide ApplyAll, ValidEvent, DecodeOperatorAudit, CompletesAction;
    AuditsAreTracked(registry, h);
    DecodedAction(h[|h| - 1]);
  }
}
