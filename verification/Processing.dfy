/**
 * The leased processors as they run: a chain of store calls, between any two of
 * which everybody else may act, and each of whose replies may be lost. The
 * activity, compensation and child processors follow one protocol and differ
 * in the progress they read, the policy they obey and the plans they commit.
 */
module Processing {
  import opened Basics
  import opened Definitions
  import opened Backoff
  import opened Events
  import opened Replay
  import opened Transitions
  import opened Planners
  import opened Store
  import opened StoreInvariants
  import opened StoreRuns
  import opened StoreMachine
  import opened ReplayMeaning
  import opened ProcessorLaw
  import HandOff
  import StoreTheorems
  import Inspection
  import ReplayMachine
  import I = Invocations
  import A = Acceptance
  import S = PlannerSoundness
  import M = MultiWriter
  import P = AttemptProtocol
  import T = ReplayTheorems
  import F = ReplayFrames

  // --- the shared store ---------------------------------------------------

  /** Whatever others do to the store meanwhile; nothing while it is calm. */
  method OthersAct(store: PostgresStore, calm: bool)
    requires StoreOk(store.Contents())
    modifies store
    ensures StoreOk(store.Contents()) && Extends(old(store.Contents()), store.Contents())
    ensures calm ==> store.Contents() == old(store.Contents())
  {
    hide StoreOk, Extends, Perform;
    var ops: seq<Op> := *;
    if ValidOps(ops) && !calm {
      RunExtends(store.Contents(), ops);
      store.Publish(PerformAll(store.Contents(), ops));
    } else {
      ExtendsItself(store.Contents());
    }
  }

  /** A reply of acknowledgement, for a fresh commit or an exact replay, is never wrong. */
  lemma AcknowledgedIsDurable(db: Tables, t: Transition)
    requires t.events != [] && !StageOutcomeOf(db, t).Refused?
    ensures I.Durable(Commit(db, t), t)
  {
    hide StagedInstance, WithEvents, WithWork, StageFailure;
  }

  lemma DurableKept(db: Tables, later: Tables, t: Transition)
    requires Extends(db, later) && I.Durable(db, t)
    ensures I.Durable(later, t)
  {
    hide WorkExtends;
  }

  /** The store was at some point in a state that refuses the plan. */
  ghost predicate WasRefused(before: Tables, after: Tables, t: Transition)
    requires t.events != []
  {
    exists db :: StoreOk(db) && Extends(before, db) && Extends(db, after) && StageOutcomeOf(db, t).Refused?
  }

  lemma RefusalKept(before: Tables, since: Tables, until: Tables, after: Tables, t: Transition)
    requires t.events != [] && WasRefused(since, until, t) && Extends(before, since) && Extends(until, after)
    ensures WasRefused(before, after, t)
  {
    hide Extends, StoreOk, StageOutcomeOf;
    var db :| StoreOk(db) && Extends(since, db) && Extends(db, until) && StageOutcomeOf(db, t).Refused?;
    ExtendsTransitive(before, since, db);
    ExtendsTransitive(db, until, after);
  }

  /**
   * One commit call while others act before it and its reply may be lost. A
   * refusal is real, and while it is calm the reply is the store's own.
   */
  method SendCommit(store: PostgresStore, t: Transition, calm: bool, fate: Fate) returns (reply: CommitReply)
    requires StoreOk(store.Contents()) && ValidOp(DoCommit(t))
    modifies store
    ensures StoreOk(store.Contents()) && Extends(old(store.Contents()), store.Contents()) && t.events != []
    ensures reply.Acknowledged? ==> I.Durable(store.Contents(), t)
    ensures reply.NotCommitted? ==> WasRefused(old(store.Contents()), store.Contents(), t)
    ensures fate.Delivered? ==> !reply.OutcomeUnknown?
    ensures calm && fate.Delivered? ==>
              && store.Contents() == Commit(old(store.Contents()), t)
              && (reply.Acknowledged? <==> !StageOutcomeOf(old(store.Contents()), t).Refused?)
  {
    hide StoreOk, Extends, I.Durable, StageOutcomeOf, Staged, ContiguousFrom, TimesOrdered, Anchored, DistinctWork,
         StartsRight;
    OthersAct(store, calm);
    ghost var before := store.Contents();
    CommitKeepsAndExtends(before, t);
    ExtendsItself(before);
    reply := store.Commit(t, fate);
    if reply.Acknowledged? {
      AcknowledgedIsDurable(before, t);
      if fate.CommitLost? {
        ReplayedWhileLost(before, t);
      }
    }
    ExtendsTransitive(old(store.Contents()), before, store.Contents());
  }

  /** Without reaching the final commit, only an exact replay is acknowledged. */
  lemma ReplayedWhileLost(db: Tables, t: Transition)
    requires t.events != [] && StageOutcomeOf(db, t).ExactReplay?
    ensures I.Durable(db, t)
  {
    hide StageFailure;
  }

  /** What becomes of the messages of one commit: the first reply, the reconciliation, the second reply. */
  datatype Weather = Weather(first: Fate, reached: bool, second: Fate)

  /** The first reply is lost, and then the reconciliation or the second one too. */
  predicate Foul(w: Weather) {
    !w.first.Delivered? && (!w.reached || !w.second.Delivered?)
  }

  /**
   * Commits with reconciliation of lost replies. Whatever is lost and whoever
   * interferes, success means that exactly this transition is durable; an error
   * is a connection lost twice or a refusal the store really gave; and while
   * nobody interferes and the reply arrives, the commit succeeds exactly when
   * the store does not refuse it.
   */
  method CommitActivityTransition(store: PostgresStore, t: Transition, calm: bool, weather: Weather)
    returns (failure: Option<Error>)
    requires StoreOk(store.Contents()) && ValidOp(DoCommit(t))
    modifies store
    ensures StoreOk(store.Contents()) && Extends(old(store.Contents()), store.Contents()) && t.events != []
    ensures failure.None? ==> I.Durable(store.Contents(), t)
    ensures failure.Some? ==>
              (failure.value == Transport && Foul(weather)) ||
              WasRefused(old(store.Contents()), store.Contents(), t)
    ensures calm && weather.first.Delivered? ==>
              && store.Contents() == Commit(old(store.Contents()), t)
              && (failure.None? <==> !StageOutcomeOf(old(store.Contents()), t).Refused?)
  {
    hide StoreOk, Extends, ValidTransition, ValidOp, WasRefused, StageOutcomeOf;
    var reply := SendCommit(store, t, calm, weather.first);
    match reply {
      case Acknowledged => return None;
      case NotCommitted(error) => return Some(error);
      case OutcomeUnknown =>
    }
    ghost var sent := store.Contents();
    OthersAct(store, calm);
    ExtendsTransitive(old(store.Contents()), sent, store.Contents());
    if !weather.reached {
      return Some(Transport);
    }
    ghost var missing := store.Contents();
    ExtendsItself(missing);
    var reconciled := store.ReconcileTransition(t);
    match reconciled {
      case TransitionCommitted => return None;
      case TransitionConflicting =>
        ConflictIsRefused(old(store.Contents()), missing, t);
        return Some(DuplicateTransition);
      case TransitionMissing =>
    }
    reply := SendCommit(store, t, calm, weather.second);
    ExtendsTransitive(old(store.Contents()), missing, store.Contents());
    match reply {
      case Acknowledged => failure := None;
      case NotCommitted(error) =>
        ExtendsItself(store.Contents());
        RefusalKept(old(store.Contents()), missing, store.Contents(), store.Contents(), t);
        failure := Some(error);
      case OutcomeUnknown => failure := Some(Transport);
    }
  }

  lemma ConflictIsRefused(before: Tables, db: Tables, t: Transition)
    requires StoreOk(db) && Extends(before, db) && ValidOp(DoCommit(t)) && t.events != []
    requires Reconcile(db, t).TransitionConflicting?
    ensures WasRefused(before, db, t)
  {
    hide StoreOk, Extends, StageFailure;
    ExtendsItself(db);
    assert StageOutcomeOf(db, t).Refused?;
  }

  /** Durable means in history exactly once: one slice, and no other durable transition covers any of it. */
  lemma CommittedExactlyOnce(db: Tables, t: Transition, k: nat)
    requires StoreOk(db) && I.Durable(db, t) && k < |t.events|
    ensures var h := HistoryOf(db, t.instanceID);
            && t.expectedSequence + k < |h| && h[t.expectedSequence + k] == t.events[k]
            && (forall other | other in db.transitions && Covers(db.transitions[other], t.instanceID, t.expectedSequence + k + 1) ::
                  other == t.id)
  {
    hide StoreOk, HistoryOf;
    StoreTheorems.DurableEvents(db, t.id);
    var h := HistoryOf(db, t.instanceID);
    assert h[t.expectedSequence..t.expectedSequence + |t.events|][k] == h[t.expectedSequence + k];
    StoreTheorems.StoredHistoryValid(db, t.instanceID);
    DurableCovers(db, t, k);
    var tid := StoreTheorems.PositionsTiled(db, t.instanceID, t.expectedSequence + k + 1);
  }

  lemma DurableCovers(db: Tables, t: Transition, k: nat)
    requires StoreOk(db) && I.Durable(db, t) && k < |t.events|
    ensures Covers(db.transitions[t.id], t.instanceID, t.expectedSequence + k + 1)
  {
    hide HistoryKeyed, HistoryFull, RowsAgree, Tiled, WorkOk, WorkAnchored, ResolutionsOk, StoredAt;
    assert PlanStored(db, db.transitions[t.id]);
  }

  // --- its plans ----------------------------------------------------------

  function PlanOutcome(kind: ProcessorKind, work: PendingWork, view: Instance, d: Definition, at: Time, o: Outcome)
    : Option<Transition>
    requires !work.payload.Text?
  {
    var id := Hashed(kind, "outcome", work.id);
    var name, attempt := work.payload.stepName, work.payload.attempt;
    match kind
    case ActivityProcessor => NewActivityAttemptOutcome(OutcomeSpec(id, view, d, name, attempt, at, o))
    case CompensationProcessor => NewCompensationAttemptOutcome(OutcomeSpec(id, view, d, name, attempt, at, o))
    case ChildProcessor =>
      if !work.payload.ChildDocument? then None
      else NewChildStartAttemptOutcome(ChildOutcomeSpec(id, view, d, name, work.payload.childID, attempt, at, o))
  }

  function PlanRetry(kind: ProcessorKind, work: PendingWork, view: Instance, d: Definition, at: Time): Option<Transition>
    requires !work.payload.Text?
  {
    var spec := RetrySpec(Hashed(kind, "retry", work.id), Hashed(kind, "retry-work", work.id), view, d,
                          work.payload.stepName, Hashed(kind, "retry-key", work.id), at, work.deadline,
                          Routing(work.tenantID, work.correlationID));
    match kind
    case ActivityProcessor => NewActivityRetry(spec)
    case CompensationProcessor => NewCompensationRetry(spec)
    case ChildProcessor => NewChildStartRetry(spec)
  }

  lemma PlannedStartValid(registry: Registry, run: I.Run, view: Instance, now: Time)
    ensures I.PlanStart(registry, run, view, now).Some? ==>
              ValidOp(DoCommit(I.PlanStart(registry, run, view, now).value))
  {
    hide ValidTransition, ValidEvent, ValidLease, FindStep, InsideLease;
  }

  lemma PlannedOutcomeValid(kind: ProcessorKind, work: PendingWork, view: Instance, d: Definition, at: Time, o: Outcome)
    requires !work.payload.Text?
    ensures PlanOutcome(kind, work, view, d, at, o).Some? ==>
              ValidOp(DoCommit(PlanOutcome(kind, work, view, d, at, o).value))
  {
    hide ValidTransition, ValidEvent, FindStep, ValidOutcome;
  }

  lemma PlannedRetryValid(kind: ProcessorKind, work: PendingWork, view: Instance, d: Definition, at: Time)
    requires !work.payload.Text?
    ensures PlanRetry(kind, work, view, d, at).Some? ==> ValidOp(DoCommit(PlanRetry(kind, work, view, d, at).value))
  {
    hide ValidTransition, ValidEvent, ValidWork, FindStep, RetryDelay;
  }

  // --- outcomes -----------------------------------------------------------

  /** The stored history records an outcome of this attempt. */
  predicate OutcomeRecorded(db: Tables, kind: ProcessorKind, id: Ident, name: string, attempt: nat) {
    exists k | 0 <= k < |HistoryOf(db, id)| :: T.IsOutcomeOf(I.FamilyOf(kind), name, HistoryOf(db, id)[k], attempt)
  }

  predicate IsChildResult(name: string, e: HistoryEvent) {
    (e.kind.ChildCompleted? || e.kind.ChildFailed?) && e.stepName == name
  }

  predicate ChildResultRecorded(db: Tables, id: Ident, name: string) {
    exists k | 0 <= k < |HistoryOf(db, id)| :: IsChildResult(name, HistoryOf(db, id)[k])
  }

  /** What completion of a work item rests on: its attempt's outcome, or for a child its own end. */
  predicate Settled(db: Tables, kind: ProcessorKind, id: Ident, name: string, attempt: nat) {
    OutcomeRecorded(db, kind, id, name, attempt) || (kind.ChildProcessor? && ChildResultRecorded(db, id, name))
  }

  lemma SettledKept(db: Tables, later: Tables, kind: ProcessorKind, id: Ident, name: string, attempt: nat)
    requires StoreOk(db) && StoreOk(later) && Extends(db, later) && Settled(db, kind, id, name, attempt)
    ensures Settled(later, kind, id, name, attempt)
  {
    hide StoreOk, Extends, T.IsOutcomeOf, HistoryUpTo, IsChildResult;
    Inspection.HistoryGrows(db, later, id);
    var h, g := HistoryOf(db, id), HistoryOf(later, id);
    assert forall k | 0 <= k < |h| :: g[k] == h[k];
    if OutcomeRecorded(db, kind, id, name, attempt) {
      var k :| 0 <= k < |h| && T.IsOutcomeOf(I.FamilyOf(kind), name, h[k], attempt);
      assert T.IsOutcomeOf(I.FamilyOf(kind), name, g[k], attempt);
    } else {
      var k :| 0 <= k < |h| && IsChildResult(name, h[k]);
      assert IsChildResult(name, g[k]);
    }
  }

  lemma PlannedOutcomeShape(kind: ProcessorKind, work: PendingWork, view: Instance, d: Definition, at: Time, o: Outcome)
    requires !work.payload.Text? && PlanOutcome(kind, work, view, d, at, o).Some?
    ensures var t := PlanOutcome(kind, work, view, d, at, o).value;
            && t.instanceID == view.id && |t.events| == 1
            && T.IsOutcomeOf(I.FamilyOf(kind), work.payload.stepName, t.events[0], work.payload.attempt)
  {
    hide ValidTransition, ValidEvent, FindStep, ValidOutcome;
  }

  lemma ReportedOutcome(db: Tables, kind: ProcessorKind, work: PendingWork, view: Instance, d: Definition, at: Time,
                        o: Outcome)
    requires StoreOk(db) && !work.payload.Text? && PlanOutcome(kind, work, view, d, at, o).Some?
    requires I.Durable(db, PlanOutcome(kind, work, view, d, at, o).value)
    ensures Settled(db, kind, view.id, work.payload.stepName, work.payload.attempt)
  {
    hide StoreOk, HistoryOf, PlanOutcome, T.IsOutcomeOf;
    PlannedOutcomeShape(kind, work, view, d, at, o);
    CommittedExactlyOnce(db, PlanOutcome(kind, work, view, d, at, o).value, 0);
  }

  /** The event reports this very answer for the attempt. */
  predicate IsAnswer(kind: ProcessorKind, name: string, attempt: nat, o: Outcome, e: HistoryEvent) {
    && Concerns(TopicOf(kind), e.kind) && e.stepName == name && e.attempt == attempt && Brings(e, OutcomePhase(o.kind))
    && e.code == o.code && e.retryable == o.retryable && e.data == o.data
  }

  /** The event at `k` is this answer, dated by the clock reading but not before the event it follows. */
  predicate IsAnswerAt(kind: ProcessorKind, name: string, attempt: nat, o: Outcome, reading: Time, h: seq<HistoryEvent>,
                       k: nat)
  {
    0 < k < |h| && IsAnswer(kind, name, attempt, o, h[k]) && h[k].occurredAt == Max(reading, h[k - 1].occurredAt)
  }

  /** The stored history records this very answer of the attempt. */
  predicate AnswerRecorded(db: Tables, kind: ProcessorKind, id: Ident, name: string, attempt: nat, o: Outcome, reading: Time) {
    exists k | 0 <= k < |HistoryOf(db, id)| :: IsAnswerAt(kind, name, attempt, o, reading, HistoryOf(db, id), k)
  }

  lemma AnswerKept(db: Tables, later: Tables, kind: ProcessorKind, id: Ident, name: string, attempt: nat, o: Outcome,
                   reading: Time)
    requires StoreOk(db) && StoreOk(later) && Extends(db, later) && AnswerRecorded(db, kind, id, name, attempt, o, reading)
    ensures AnswerRecorded(later, kind, id, name, attempt, o, reading)
  {
    hide StoreOk, Extends, IsAnswer, HistoryUpTo;
    Inspection.HistoryGrows(db, later, id);
    var h, g := HistoryOf(db, id), HistoryOf(later, id);
    var k :| 0 <= k < |h| && IsAnswerAt(kind, name, attempt, o, reading, h, k);
    assert g[k] == h[k] && g[k - 1] == h[k - 1];
    assert IsAnswerAt(kind, name, attempt, o, reading, g, k);
  }

  lemma PlannedAnswer(kind: ProcessorKind, work: PendingWork, view: Instance, d: Definition, at: Time, o: Outcome)
    requires !work.payload.Text? && PlanOutcome(kind, work, view, d, at, o).Some?
    ensures var t := PlanOutcome(kind, work, view, d, at, o).value;
            && t.instanceID == view.id && |t.events| == 1 && t.expectedSequence == view.sequence
            && t.id == Hashed(kind, "outcome", work.id) && t.work == []
            && IsAnswer(kind, work.payload.stepName, work.payload.attempt, o, t.events[0]) && t.events[0].occurredAt == at
  {
    hide ValidTransition, ValidEvent, FindStep;
  }

  /** The last event a view was replayed from, in any later history. */
  lemma ViewedLast(registry: Registry, seen: Tables, db: Tables, id: Ident, view: Instance)
    requires StoreOk(seen) && StoreOk(db) && Extends(seen, db) && M.IsView(registry, seen, id, view)
    ensures 0 < view.sequence <= |HistoryOf(db, id)| && HistoryOf(db, id)[view.sequence - 1].occurredAt == view.updatedAt
  {
    hide StoreOk, Extends, HistoryUpTo, ApplyAll;
    Inspection.HistoryGrows(seen, db, id);
    StoreTheorems.StoredHistoryValid(seen, id);
    F.AcceptedShape(registry, HistoryOf(seen, id));
  }

  lemma AnsweredOutcome(registry: Registry, seen: Tables, db: Tables, kind: ProcessorKind, work: PendingWork,
                        view: Instance, d: Definition, reading: Time, o: Outcome, t: Transition, name: string,
                        attempt: Uint32)
    requires !work.payload.Text? && work.payload.stepName == name && work.payload.attempt == attempt
    requires PlanOutcome(kind, work, view, d, Max(reading, view.updatedAt), o) == Some(t)
    requires StoreOk(seen) && StoreOk(db) && Extends(seen, db) && M.IsView(registry, seen, work.instanceID, view)
    requires I.Durable(db, t)
    ensures AnswerRecorded(db, kind, work.instanceID, name, attempt, o, reading)
  {
    hide StoreOk, HistoryOf, PlanOutcome, IsAnswer, Extends, ReplayHistory;
    InspectedIdentity(registry, seen, work.instanceID, view);
    ViewedLast(registry, seen, db, work.instanceID, view);
    PlannedAnswer(kind, work, view, d, Max(reading, view.updatedAt), o);
    CommittedExactlyOnce(db, t, 0);
    assert IsAnswerAt(kind, name, attempt, o, reading, HistoryOf(db, work.instanceID), view.sequence);
  }

  /**
   * A retry plan is its own transition, and its work item hands over the next
   * attempt at the policy's delay, within the old item's deadline and for its tenant.
   */
  lemma RetryHandsOn(registry: Registry, kind: ProcessorKind, work: PendingWork, view: Instance, d: Definition, at: Time)
    requires !work.payload.Text? && A.Settled(registry, view) && PlanRetry(kind, work, view, d, at).Some?
    requires kind.ActivityProcessor? ==> view.status.Running?
    ensures var t, name := PlanRetry(kind, work, view, d, at).value, work.payload.stepName;
            && t.id == Hashed(kind, "retry", work.id) && t.instanceID == view.id && t.expectedSequence == view.sequence
            && ApplyAll(registry, view, t.events).Ok? && StandingOf(kind, view, name).Some?
            && HandOff.TermsOf(kind, d, name).Some?
            && var attempt, policy := StandingOf(kind, view, name).value.attempt, HandOff.TermsOf(kind, d, name).value.retry;
               && |t.work| == 1
               && HandOff.HandsOver(kind, d, t, ApplyAll(registry, view, t.events).value, name, attempt + 1,
                                    t.work[0].payload.key, Hashed(kind, "retry-work", work.id),
                                    at + RetryDelay(policy, attempt), work.deadline,
                                    Routing(work.tenantID, work.correlationID))
               && (!kind.ChildProcessor? ==> t.work[0].payload.key == Hashed(kind, "retry-key", work.id))
  {
    hide ApplyAll, ValidTransition, ValidEvent, ValidWork, RetryDelay, HandOff.Hands;
    var spec := RetrySpec(Hashed(kind, "retry", work.id), Hashed(kind, "retry-work", work.id), view, d,
                          work.payload.stepName, Hashed(kind, "retry-key", work.id), at, work.deadline,
                          Routing(work.tenantID, work.correlationID));
    match kind {
      case ActivityProcessor => HandOff.ActivityRetryHands(registry, spec);
      case CompensationProcessor => HandOff.CompensationRetryHands(registry, spec);
      case ChildProcessor => HandOff.ChildRetryHands(registry, spec);
    }
  }

  /** A word that left attempt `n` finished contains that attempt's outcome. */
  lemma FinishedWord(word: seq<P.Token>, n: nat) returns (j: nat)
    requires P.Run(P.Absent, word).Some?
    requires var p := P.Run(P.Absent, word).value;
             p == P.Succeeded(n) || (p.Failed? && p.n == n) || p == P.Unknown(n) || p == P.Settled(n)
    ensures j < |word| && P.IsOutcome(word[j], n)
  {
    var init, last := word[..|word| - 1], word[|word| - 1];
    assert word == init + [last];
    P.RunSnoc(P.Absent, init, last);
    if last.Resolved? {
      j := FinishedWord(init, n);
    } else {
      j := |word| - 1;
    }
  }

  /** Finished progress is a finished phase of the step's machine. */
  lemma FinishedPhase(kind: ProcessorKind, view: Instance, name: string, p: P.Phase)
    requires T.Agrees(I.FamilyOf(kind), view, name, p) && StandingOf(kind, view, name).Some?
    requires StandingOf(kind, view, name).value.stage.KnownFailure? || StandingOf(kind, view, name).value.stage.Concluded?
    ensures var n := StandingOf(kind, view, name).value.attempt;
            p == P.Succeeded(n) || (p.Failed? && p.n == n) || p == P.Unknown(n) || p == P.Settled(n)
  {
  }

  /** Replayed progress that shows a finished attempt comes from a recorded outcome. */
  lemma FinishedIsRecorded(registry: Registry, db: Tables, kind: ProcessorKind, id: Ident, view: Instance, name: string)
    requires StoreOk(db) && ReplayHistory(registry, HistoryOf(db, id)) == Ok(view)
    requires StandingOf(kind, view, name).Some?
    requires StandingOf(kind, view, name).value.stage.KnownFailure? || StandingOf(kind, view, name).value.stage.Concluded?
    ensures Settled(db, kind, id, name, StandingOf(kind, view, name).value.attempt)
  {
    hide StoreOk, ApplyAll, HistoryUpTo, P.Run, StandingOf, T.Agrees;
    var h, f := HistoryOf(db, id), I.FamilyOf(kind);
    var n := StandingOf(kind, view, name).value.attempt;
    StoreTheorems.StoredHistoryValid(db, id);
    T.HistoryDrivesMachine(registry, f, h, name);
    var word := T.WordOf(f, name, h);
    FinishedPhase(kind, view, name, P.Run(P.Absent, word).value);
    var j := FinishedWord(word, n);
    var k := T.TokenOrigin(f, name, h, j);
    assert T.IsOutcomeOf(f, name, h[k], n);
  }

  predicate Ended(i: Instance, name: string) {
    name in i.children && ChildStage(i.children[name].status).ChildEnded?
  }

  lemma EndingEvent(registry: Registry, i: Instance, e: HistoryEvent, name: string)
    requires i.sequence != 0 && Apply(registry, i, e).Ok? && !Ended(i, name) && Ended(Apply(registry, i, e).value, name)
    ensures IsChildResult(name, e)
  {
    hide Apply;
    F.ApplyChildren(registry, i, e);
  }

  /** An ended child was ended by an event of the history. */
  lemma {:induction false} EndIsRecorded(registry: Registry, h: seq<HistoryEvent>, name: string) returns (k: nat)
    requires h != [] && ValidEvents(h) && ApplyAll(registry, BLANK, h).Ok? && Ended(ApplyAll(registry, BLANK, h).value, name)
    ensures k < |h| && IsChildResult(name, h[k])
  {
    hide Apply, ValidEvent, Ended, IsChildResult;
    var init, last := h[..|h| - 1], h[|h| - 1];
    assert h == init + [last];
    if init == [] {
      assert ApplyAll(registry, BLANK, init) == Ok(BLANK);
      F.StartHeader(registry, last);
      NothingEnded(registry, last, name);
    } else {
      var i := ApplyAll(registry, BLANK, init).value;
      F.AcceptedShape(registry, init);
      if Ended(i, name) {
        k := EndIsRecorded(registry, init, name);
      } else {
        EndingEvent(registry, i, last, name);
        k := |h| - 1;
      }
    }
  }

  lemma NothingEnded(registry: Registry, e: HistoryEvent, name: string)
    requires Apply(registry, BLANK, e).Ok?
    ensures !Ended(Apply(registry, BLANK, e).value, name)
  {
    hide Apply;
    F.StartHeader(registry, e);
  }

  lemma EndedIsRecorded(registry: Registry, db: Tables, id: Ident, view: Instance, name: string, attempt: nat)
    requires StoreOk(db) && ReplayHistory(registry, HistoryOf(db, id)) == Ok(view) && Ended(view, name)
    ensures Settled(db, ChildProcessor, id, name, attempt)
  {
    hide StoreOk, ApplyAll, HistoryUpTo, IsChildResult;
    StoreTheorems.StoredHistoryValid(db, id);
    var k := EndIsRecorded(registry, HistoryOf(db, id), name);
  }

  // --- retries ------------------------------------------------------------

  /** When a retry planned at this clock reading would be dated. */
  function DatedAfter(view: Instance, reading: Time): Time {
    Max(reading, view.updatedAt)
  }

  /** Policy allows another attempt, and its delay ends before the work's deadline. */
  predicate RetryDue(kind: ProcessorKind, view: Instance, policy: Policy, work: PendingWork, reading: Time)
    requires !work.payload.Text?
  {
    var standing := StandingOf(kind, view, work.payload.stepName);
    && standing.Some? && standing.value.retryable && standing.value.attempt < policy.retry.maxAttempts
    && DatedAfter(view, reading) + RetryDelay(policy.retry, standing.value.attempt) < work.deadline
  }

  /** The retry planned on this view is durable if one is due, and nothing else was asked for. */
  predicate Retried(db: Tables, kind: ProcessorKind, work: PendingWork, view: Instance, d: Definition, policy: Policy,
                    reading: Time)
    requires !work.payload.Text?
  {
    RetryDue(kind, view, policy, work, reading) ==>
      var plan := PlanRetry(kind, work, view, d, DatedAfter(view, reading));
      plan.Some? && I.Durable(db, plan.value)
  }

  /** On some view read since, the retry that was due is durable. */
  ghost predicate RetriedSince(registry: Registry, before: Tables, after: Tables, kind: ProcessorKind, work: PendingWork,
                               d: Definition, policy: Policy, reading: Time)
    requires !work.payload.Text?
  {
    exists mid, view :: StoreOk(mid) && Extends(before, mid) && Extends(mid, after) &&
                        M.IsView(registry, mid, work.instanceID, view) &&
                        Retried(after, kind, work, view, d, policy, reading)
  }

  /** The answer was read back from a history that still replays. */
  ghost predicate ReadBack(registry: Registry, before: Tables, after: Tables, kind: ProcessorKind, work: PendingWork,
                           o: Outcome, reading: Time)
    requires !work.payload.Text?
  {
    exists mid, view :: StoreOk(mid) && Extends(before, mid) && Extends(mid, after) &&
                        M.IsView(registry, mid, work.instanceID, view) &&
                        AnswerRecorded(mid, kind, work.instanceID, work.payload.stepName, work.payload.attempt, o, reading)
  }

  lemma ReadBackHere(registry: Registry, before: Tables, mid: Tables, after: Tables, kind: ProcessorKind, work: PendingWork,
                     view: Instance, o: Outcome, reading: Time)
    requires !work.payload.Text? && StoreOk(mid) && Extends(before, mid) && Extends(mid, after)
    requires M.IsView(registry, mid, work.instanceID, view)
    requires AnswerRecorded(mid, kind, work.instanceID, work.payload.stepName, work.payload.attempt, o, reading)
    ensures ReadBack(registry, before, after, kind, work, o, reading)
  {
    hide StoreOk, Extends, M.IsView, AnswerRecorded;
  }

  lemma ReadBackEarlier(registry: Registry, before: Tables, since: Tables, after: Tables, kind: ProcessorKind,
                        work: PendingWork, o: Outcome, reading: Time)
    requires !work.payload.Text? && Extends(before, since) && ReadBack(registry, since, after, kind, work, o, reading)
    ensures ReadBack(registry, before, after, kind, work, o, reading)
  {
    hide StoreOk, Extends, M.IsView, AnswerRecorded;
    var mid, view :| StoreOk(mid) && Extends(since, mid) && Extends(mid, after) &&
                     M.IsView(registry, mid, work.instanceID, view) &&
                     AnswerRecorded(mid, kind, work.instanceID, work.payload.stepName, work.payload.attempt, o, reading);
    ExtendsTransitive(before, since, mid);
  }

  /** What the store must not refuse for a retry to go through. */
  predicate RetryWelcome(db: Tables, kind: ProcessorKind, work: PendingWork, view: Instance, d: Definition, policy: Policy,
                         reading: Time)
    requires !work.payload.Text?
  {
    RetryDue(kind, view, policy, work, reading) ==>
      var plan := PlanRetry(kind, work, view, d, DatedAfter(view, reading));
      plan.Some? && plan.value.events != [] && !StageOutcomeOf(db, plan.value).Refused?
  }

  // --- processing ---------------------------------------------------------

  /** What a handler is called with. */
  datatype Request = Request(
    instanceID: Ident, definition: DefinitionRef, dispatch: Payload, startedAt: Time, deadline: Time, input: Data,
    routing: Routing)

  predicate ValidRequest(r: Request, policy: Policy) {
    && ValidIdent(r.instanceID) && ValidReference(r.definition) && !r.dispatch.Text? && StableName(r.dispatch.stepName)
    && 0 < r.dispatch.attempt <= policy.retry.maxAttempts && ValidIdent(r.dispatch.key) && r.startedAt != ZERO_TIME
    && r.deadline > r.startedAt && ValidPayloadLimit(policy.inputLimit) && ValidPayloadLimit(policy.resultLimit)
    && r.input.Size() <= policy.inputLimit
  }

  /** An outcome that must be reconciled outside. */
  function Unclear(code: string): Outcome {
    Outcome(OutcomeKind.OutcomeUnknown, code, false, EMPTY)
  }

  function LostCode(kind: ProcessorKind): string {
    match kind
    case ActivityProcessor => "activity-outcome-unknown"
    case CompensationProcessor => "compensation-outcome-unknown"
    case ChildProcessor => "child-start-outcome-unknown"
  }

  function PanicCode(kind: ProcessorKind): string {
    match kind
    case ActivityProcessor => "activity-panic"
    case CompensationProcessor => "compensation-panic"
    case ChildProcessor => "child-start-panic"
  }

  function FailureCode(kind: ProcessorKind): string {
    match kind
    case ActivityProcessor => "activity-execution-unknown"
    case CompensationProcessor => "compensation-execution-unknown"
    case ChildProcessor => "child-start-invalid-outcome"
  }

  lemma PanicCodeStable(kind: ProcessorKind)
    ensures StableName(PanicCode(kind))
  {
  }

  lemma ActivityCodeStable()
    ensures StableName("activity-execution-unknown")
  {
  }

  lemma CompensationCodeStable()
    ensures StableName("compensation-execution-unknown")
  {
  }

  lemma ChildCodeStable()
    ensures StableName("child-start-invalid-outcome")
  {
  }

  lemma FailureCodeStable(kind: ProcessorKind)
    ensures StableName(FailureCode(kind))
  {
    hide StableName;
    ActivityCodeStable();
    CompensationCodeStable();
    ChildCodeStable();
  }

  /** A malformed answer is never recorded: its plan is refused. */
  lemma MalformedIsRefused(kind: ProcessorKind, work: PendingWork, view: Instance, d: Definition, at: Time, o: Outcome)
    requires !work.payload.Text? && !ValidOutcome(o)
    ensures PlanOutcome(kind, work, view, d, at, o).None?
  {
  }

  /** How a handler call ends. */
  datatype Reply = Panicked | Failed | Replied(outcome: Outcome)

  /** What is reported for it: only a well-formed answer, or for activities any answer, is taken as it is. */
  predicate IsReport(kind: ProcessorKind, reply: Reply, o: Outcome) {
    if reply.Replied? && (!kind.ChildProcessor? || ValidStartOutcome(reply.outcome)) then o == reply.outcome
    else o.kind.OutcomeUnknown? && ValidStartOutcome(o)
  }

  datatype Fault = BadDispatch | BadDefinition | BadState

  /** The dead-letter code of each fault. */
  function CodeOf(kind: ProcessorKind, fault: Fault): string {
    (match kind
     case ActivityProcessor => "invalid-activity-"
     case CompensationProcessor => "invalid-compensation-"
     case ChildProcessor => "invalid-child-") +
    match fault
    case BadDispatch => "dispatch"
    case BadDefinition => "definition"
    case BadState => "state"
  }

  datatype WorkDecision = CompleteWork | DeadLetterWork(code: string)

  /** The clock readings of one processing call. */
  datatype Readings = Readings(started: Time, reported: Time, retried: Time)

  /** The durable start behind a handler call. */
  predicate StartBehind(db: Tables, kind: ProcessorKind, workID: Ident, r: Request, at: Time) {
    var id := I.StartID(kind, workID);
    && id in db.transitions && db.transitions[id].plan.events != [] && !r.dispatch.Text?
    && var e := db.transitions[id].plan.events[0];
       T.IsStartOf(I.FamilyOf(kind), r.dispatch.stepName, e) && e.instanceID == r.instanceID &&
       e.attempt == r.dispatch.attempt && e.idempotencyKey == r.dispatch.key && e.occurredAt == at
  }

  lemma StartBehindKept(db: Tables, later: Tables, kind: ProcessorKind, workID: Ident, r: Request, at: Time)
    requires Extends(db, later) && StartBehind(db, kind, workID, r, at)
    ensures StartBehind(later, kind, workID, r, at)
  {
    hide WorkExtends, T.IsStartOf;
  }

  lemma StartIsBehind(db: Tables, registry: Registry, run: I.Run, view: Instance, now: Time, r: Request)
    requires I.PlanStart(registry, run, view, now).Some? && I.Durable(db, I.PlanStart(registry, run, view, now).value)
    requires r.dispatch == run.lease.work.payload && !r.dispatch.Text? && r.instanceID == run.lease.work.instanceID
    ensures StartBehind(db, run.kind, run.lease.work.id, r, now)
  {
    hide ValidTransition, ValidEvent, ValidLease, FindStep, InsideLease;
  }

  lemma InspectedIdentity(registry: Registry, db: Tables, id: Ident, view: Instance)
    requires StoreOk(db) && ReplayHistory(registry, HistoryOf(db, id)) == Ok(view)
    ensures view.id == id && id in db.instances
  {
    hide StoreOk, HistoryUpTo, ApplyAll;
    StoreTheorems.StoredHistoryValid(db, id);
    Inspection.StoredPositions(db, id);
    F.AcceptedShape(registry, HistoryOf(db, id));
  }

  // --- the exact verdict --------------------------------------------------

  /** Someone has read this history and replayed it. */
  predicate Replays(registry: Registry, h: seq<HistoryEvent>) {
    h != [] && ReplayHistory(registry, h).Ok?
  }

  function PolicyAt(registry: Registry, kind: ProcessorKind, h: seq<HistoryEvent>, payload: Payload): Option<Policy>
    requires h != [] && !payload.Text?
  {
    var pin := F.PinnedDefinition(h);
    var key := DefinitionKey(pin.name, pin.version);
    if key in registry.definitions then PolicyOf(kind, registry.definitions[key], payload) else None
  }

  function DefinitionAt(registry: Registry, h: seq<HistoryEvent>): Option<Definition>
    requires h != []
  {
    var pin := F.PinnedDefinition(h);
    var key := DefinitionKey(pin.name, pin.version);
    if key in registry.definitions then Some(registry.definitions[key]) else None
  }

  /**
   * What one processing call decides, from the history it first read. `called`
   * says whether the handler was called, `answer` what it answered then.
   */
  ghost predicate Justified(registry: Registry, handlers: set<string>, kind: ProcessorKind, seen: Tables, after: Tables,
                            work: PendingWork, readings: Readings, decision: Result<WorkDecision>, called: bool,
                            answer: Outcome)
    requires !work.payload.Text?
  {
    var h, payload := HistoryOf(seen, work.instanceID), work.payload;
    var name := payload.stepName;
    var tale := Attempts(kind, name, h);
    if !Replays(registry, h) then decision.Err? && !called
    else if !IsCarried(registry, handlers, kind, h, work) then
      decision == Ok(DeadLetterWork(CodeOf(kind, BadDefinition))) && !called
    else
      var d, policy := DefinitionAt(registry, h).value, PolicyAt(registry, kind, h, payload).value;
      if IsNext(tale, payload.attempt) then
        (decision.Ok? ==>
           && called && decision.value.CompleteWork?
           && AnswerRecorded(after, kind, work.instanceID, name, payload.attempt, answer, readings.reported)
           && (!kind.ChildProcessor? ==> ReadBack(registry, seen, after, kind, work, answer, readings.reported))
           && (answer.kind.OutcomeFailed? ==> RetriedSince(registry, seen, after, kind, work, d, policy, readings.retried)))
      else if IsCurrent(tale, payload.attempt, payload.key) then
        && !called
        && (decision.Ok? ==> decision.value.CompleteWork?)
        && (Brings(Last(tale), AttemptStarted) && decision.Ok? ==>
              AnswerRecorded(after, kind, work.instanceID, name, payload.attempt, Unclear(LostCode(kind)),
                             readings.reported) &&
              (!kind.ChildProcessor? ==>
                 ReadBack(registry, seen, after, kind, work, Unclear(LostCode(kind)), readings.reported)))
        && (Brings(Last(tale), AttemptFailed) && decision.Ok? ==>
              RetriedSince(registry, seen, after, kind, work, d, policy, readings.retried))
        && (!Brings(Last(tale), AttemptStarted) && !Brings(Last(tale), AttemptFailed) ==> decision.Ok?)
      else if IsOver(tale, payload) then decision == Ok(CompleteWork) && !called
      else decision == Ok(DeadLetterWork(CodeOf(kind, BadState))) && !called
  }

  class WorkProcessor {
    const kind: ProcessorKind
    const store: PostgresStore
    const registry: Registry
    const handlers: set<string>
    const calm: bool
    var calls: seq<Request>
    var replies: seq<Reply>
    var answers: seq<Outcome>

    /** A processor, and whether anybody disturbs it: then replies get lost, reads fail and others act. */
    constructor (kind: ProcessorKind, store: PostgresStore, registry: Registry, handlers: set<string>, calm: bool)
      ensures this.kind == kind && this.store == store && this.registry == registry && this.handlers == handlers
      ensures this.calm == calm && calls == [] && replies == [] && answers == []
    {
      this.kind, this.store, this.registry, this.handlers, this.calm := kind, store, registry, handlers, calm;
      calls, replies, answers := [], [], [];
    }

    ghost predicate Ready()
      reads this, store
    {
      StoreOk(store.Contents()) && ValidRegistry(registry) && |answers| == |replies| == |calls|
    }

    /** The handler calls made since, of which each had a durable start behind it. */
    ghost predicate CalledOnceAtMost(before: seq<Request>, workID: Ident, at: Time)
      reads this, store
    {
      calls == before ||
      (|calls| == |before| + 1 && calls[..|before|] == before &&
       StartBehind(store.Contents(), kind, workID, calls[|calls| - 1], at))
    }

    /**
     * Calls the handler. A panic or an error becomes an unknown outcome, and so
     * does a malformed answer of a child starter, which cannot fail otherwise; a
     * malformed answer of an activity or a compensation comes back as it is, for
     * the planner to refuse.
     */
    method ExecuteSafely(r: Request) returns (outcome: Outcome)
      requires |replies| == |calls|
      modifies this`calls, this`replies, this`answers
      ensures calls == old(calls) + [r] && answers == old(answers) + [outcome] && |replies| == |calls|
      ensures replies[..|old(replies)|] == old(replies) && IsReport(kind, replies[|replies| - 1], outcome)
    {
      hide StableName, PanicCode, FailureCode;
      PanicCodeStable(kind);
      FailureCodeStable(kind);
      var reply: Reply := *;
      calls, replies := calls + [r], replies + [reply];
      match reply {
        case Panicked =>
          outcome := Unclear(PanicCode(kind));
        case Failed =>
          outcome := Unclear(FailureCode(kind));
        case Replied(answer) =>
          outcome := answer;
          if kind.ChildProcessor? && !ValidStartOutcome(answer) {
            outcome := Unclear(FailureCode(kind));
          }
      }
      answers := answers + [outcome];
    }

    /** Reads and replays the instance; reading can also fail. */
    method Inspect(id: Ident) returns (result: Result<Instance>)
      requires Ready()
      modifies store
      ensures Ready() && Extends(old(store.Contents()), store.Contents())
      ensures result.Ok? ==> ReplayHistory(registry, HistoryOf(store.Contents(), id)) == result
      ensures calm ==> store.Contents() == old(store.Contents())
      ensures calm && id in store.instances ==> result == ReplayHistory(registry, HistoryOf(store.Contents(), id))
    {
      hide StoreOk, Extends, ValidRegistry, ReplayHistory;
      OthersAct(store, calm);
      var available: bool := *;
      if !available && !calm {
        return Err(Transport);
      }
      if id !in store.instances {
        return Err(StoreNotFound);
      }
      StoreTheorems.StoredHistoryValid(store.Contents(), id);
      result := ReplayMachine.ReplayEvents(registry, HistoryOf(store.Contents(), id));
    }

    /** Commits a planned transition, if planning succeeded. */
    method CommitPlan(plan: Option<Transition>) returns (failure: Option<Error>)
      requires Ready() && (plan.Some? ==> ValidOp(DoCommit(plan.value)))
      modifies store
      ensures Ready() && Extends(old(store.Contents()), store.Contents())
      ensures failure.None? ==> plan.Some? && I.Durable(store.Contents(), plan.value)
      ensures plan.Some? ==> plan.value.events != []
      ensures calm && plan.Some? ==> store.Contents() == Commit(old(store.Contents()), plan.value)
      ensures calm && plan.Some? ==> (failure.None? <==> !StageOutcomeOf(old(store.Contents()), plan.value).Refused?)
    {
      hide StoreOk, Extends, ValidRegistry, I.Durable, ValidOp, StageOutcomeOf;
      if plan.None? {
        ExtendsItself(store.Contents());
        return Some(InvalidProcessor);
      }
      var weather: Weather := *;
      if calm {
        weather := weather.(first := Delivered);
      }
      failure := CommitActivityTransition(store, plan.value, calm, weather);
    }

    /** Admits the next attempt exactly when policy and the work's deadline allow it. */
    method ScheduleRetry(work: PendingWork, instance: Instance, definition: Definition, policy: Policy, reading: Time)
      returns (decision: Result<WorkDecision>)
      requires Ready() && !work.payload.Text?
      modifies store
      ensures Ready() && Extends(old(store.Contents()), store.Contents())
      ensures decision.Ok? ==>
                decision.value.CompleteWork? &&
                Retried(store.Contents(), kind, work, instance, definition, policy, reading)
      ensures !RetryDue(kind, instance, policy, work, reading) ==>
                decision.Ok? && store.Contents() == old(store.Contents())
      ensures calm && RetryWelcome(old(store.Contents()), kind, work, instance, definition, policy, reading) ==> decision.Ok?
    {
      hide StoreOk, Extends, ValidRegistry, PlanRetry, ValidOp, StageOutcomeOf, I.Durable;
      ExtendsItself(store.Contents());
      var standing := StandingOf(kind, instance, work.payload.stepName);
      if standing.None? || !standing.value.retryable || standing.value.attempt >= policy.retry.maxAttempts {
        return Ok(CompleteWork);
      }
      var scheduledAt := Max(reading, instance.updatedAt);
      if scheduledAt + RetryDelay(policy.retry, standing.value.attempt) >= work.deadline {
        return Ok(CompleteWork);
      }
      PlannedRetryValid(kind, work, instance, definition, scheduledAt);
      var failure := CommitPlan(PlanRetry(kind, work, instance, definition, scheduledAt));
      decision := if failure.Some? then Err(failure.value) else Ok(CompleteWork);
    }

    /** Makes the very outcome durable before anything is reported complete, and retries a failure that may be. */
    method PersistOutcome(work: PendingWork, instance: Instance, definition: Definition, policy: Policy, outcome: Outcome,
                          readings: Readings)
      returns (decision: Result<WorkDecision>)
      requires Ready() && M.IsView(registry, store.Contents(), work.instanceID, instance) && !work.payload.Text?
      modifies store
      ensures Ready() && Extends(old(store.Contents()), store.Contents())
      ensures decision.Ok? ==>
                && ValidOutcome(outcome) && decision.value.CompleteWork?
                && Settled(store.Contents(), kind, work.instanceID, work.payload.stepName, work.payload.attempt)
                && AnswerRecorded(store.Contents(), kind, work.instanceID, work.payload.stepName, work.payload.attempt,
                                  outcome, readings.reported)
      ensures decision.Ok? && !kind.ChildProcessor? ==>
                ReadBack(registry, old(store.Contents()), store.Contents(), kind, work, outcome, readings.reported)
      ensures decision.Ok? && outcome.kind.OutcomeFailed? ==>
                RetriedSince(registry, old(store.Contents()), store.Contents(), kind, work, definition, policy,
                             readings.retried)
      ensures calm && Welcome(old(store.Contents()), work, instance, definition, policy, outcome, readings) ==> decision.Ok?
    {
      hide StoreOk, Extends, ValidRegistry, Settled, AnswerRecorded, I.Durable, PlanOutcome, ValidOp, ValidOutcome, Retried,
           RetryWelcome, ReplayHistory, StageOutcomeOf, RetriedSince, ReadBack;
      InspectedIdentity(registry, store.Contents(), work.instanceID, instance);
      var occurredAt := Max(readings.reported, instance.updatedAt);
      if !ValidOutcome(outcome) {
        MalformedIsRefused(kind, work, instance, definition, occurredAt, outcome);
      }
      PlannedOutcomeValid(kind, work, instance, definition, occurredAt, outcome);
      var plan := PlanOutcome(kind, work, instance, definition, occurredAt, outcome);
      var failure := CommitPlan(plan);
      if failure.Some? {
        return Err(failure.value);
      }
      ghost var reported := store.Contents();
      ReportedOutcome(reported, kind, work, instance, definition, occurredAt, outcome);
      AnsweredOutcome(registry, old(store.Contents()), reported, kind, work, instance, definition, readings.reported, outcome,
                      plan.value, work.payload.stepName, work.payload.attempt);
      if kind.ChildProcessor? && !outcome.kind.OutcomeFailed? {
        return Ok(CompleteWork);
      }
      var updated := Inspect(work.instanceID);
      ghost var inspected := store.Contents();
      ExtendsTransitive(old(store.Contents()), reported, inspected);
      SettledKept(reported, inspected, kind, work.instanceID, work.payload.stepName, work.payload.attempt);
      AnswerKept(reported, inspected, kind, work.instanceID, work.payload.stepName, work.payload.attempt, outcome,
                 readings.reported);
      if updated.Err? {
        return Err(updated.error);
      }
      InspectedIdentity(registry, inspected, work.instanceID, updated.value);
      if outcome.kind.OutcomeFailed? {
        decision := ScheduleRetry(work, updated.value, definition, policy, readings.retried);
        ExtendsTransitive(old(store.Contents()), inspected, store.Contents());
        SettledKept(inspected, store.Contents(), kind, work.instanceID, work.payload.stepName, work.payload.attempt);
        AnswerKept(inspected, store.Contents(), kind, work.instanceID, work.payload.stepName, work.payload.attempt, outcome,
                   readings.reported);
        if decision.Ok? {
          RetriedHere(registry, old(store.Contents()), inspected, store.Contents(), kind, work, updated.value, definition,
                      policy, readings.retried);
        }
      } else {
        decision := Ok(CompleteWork);
        ExtendsItself(inspected);
      }
      ReadBackHere(registry, old(store.Contents()), inspected, store.Contents(), kind, work, updated.value, outcome,
                   readings.reported);
    }

    /** Nothing the store or replay would refuse stands in the way of recording the outcome, and of the retry after it. */
    ghost predicate Welcome(db: Tables, work: PendingWork, instance: Instance, definition: Definition, policy: Policy,
                            outcome: Outcome, readings: Readings)
      requires !work.payload.Text?
    {
      var plan := PlanOutcome(kind, work, instance, definition, DatedAfter(instance, readings.reported), outcome);
      && plan.Some? && plan.value.events != [] && !StageOutcomeOf(db, plan.value).Refused?
      && work.instanceID in Commit(db, plan.value).instances
      && var updated := ReplayHistory(registry, HistoryOf(Commit(db, plan.value), work.instanceID));
         updated.Ok? && (outcome.kind.OutcomeFailed? ==>
                           RetryWelcome(Commit(db, plan.value), kind, work, updated.value, definition, policy, readings.retried))
    }

    /** Starts the attempt durably, calls the handler once, and persists what it reports. */
    method Execute(lease: WorkLease, instance: Instance, definition: Definition, policy: Policy, readings: Readings)
      returns (decision: Result<WorkDecision>)
      requires Ready() && !lease.work.payload.Text?
      modifies this`calls, this`replies, this`answers, store
      ensures Ready() && Extends(old(store.Contents()), store.Contents())
      ensures CalledOnceAtMost(old(calls), lease.work.id, readings.started)
      ensures decision.Ok? ==>
                && calls != old(calls) && decision.value.CompleteWork?
                && Settled(store.Contents(), kind, lease.work.instanceID, lease.work.payload.stepName,
                           lease.work.payload.attempt)
                && AnswerRecorded(store.Contents(), kind, lease.work.instanceID, lease.work.payload.stepName,
                                  lease.work.payload.attempt, answers[|answers| - 1], readings.reported)
                && IsReport(kind, replies[|replies| - 1], answers[|answers| - 1])
                && (!kind.ChildProcessor? ==>
                      ReadBack(registry, old(store.Contents()), store.Contents(), kind, lease.work,
                               answers[|answers| - 1], readings.reported))
                && (answers[|answers| - 1].kind.OutcomeFailed? ==>
                      RetriedSince(registry, old(store.Contents()), store.Contents(), kind, lease.work, definition, policy,
                                   readings.retried))
      ensures calm && Callable(registry, old(store.Contents()), kind, lease, instance, definition, policy, readings) ==>
                calls == old(calls) + [Asked(kind, lease, instance, policy, readings)]
    {
      hide StoreOk, Extends, ValidRegistry, Settled, AnswerRecorded, RetriedSince, I.Durable, I.PlanStart, ReplayHistory,
           StartBehind, ValidOp, StageOutcomeOf, Callable, Welcome, ValidRequest, StandingOf, ValidOutcome, Commit,
           HistoryOf, ReadBack, IsReport;
      var payload := lease.work.payload;
      var run := I.Run(kind, lease, I.Leased);
      PlannedStartValid(registry, run, instance, readings.started);
      var start := I.PlanStart(registry, run, instance, readings.started);
      if calm && Callable(registry, store.Contents(), kind, lease, instance, definition, policy, readings) {
        CallableStarts(registry, store.Contents(), kind, lease, instance, definition, policy, readings);
      }
      var failure := CommitPlan(start);
      if failure.Some? {
        return Err(failure.value);
      }
      ghost var started := store.Contents();
      var running := Inspect(lease.work.instanceID);
      ghost var inspected := store.Contents();
      ExtendsTransitive(old(store.Contents()), started, inspected);
      if running.Err? {
        return Err(running.error);
      }
      var standing := StandingOf(kind, running.value, payload.stepName);
      if standing.None? {
        return Err(InvalidProcessor);
      }
      var request := Request(running.value.id, running.value.definition, payload,
                             standing.value.dueAt - policy.timeout, standing.value.dueAt, standing.value.input,
                             Routing(lease.work.tenantID, lease.work.correlationID));
      if !ValidRequest(request, policy) {
        return Err(InvalidProcessor);
      }
      InspectedIdentity(registry, inspected, lease.work.instanceID, running.value);
      DurableKept(started, inspected, start.value);
      StartIsBehind(inspected, registry, run, instance, readings.started, request);
      var outcome := ExecuteSafely(request);
      decision := PersistOutcome(lease.work, running.value, definition, policy, outcome, readings);
      ExtendsTransitive(old(store.Contents()), inspected, store.Contents());
      StartBehindKept(inspected, store.Contents(), kind, lease.work.id, request, readings.started);
      if decision.Ok? && !kind.ChildProcessor? {
        ReadBackEarlier(registry, old(store.Contents()), inspected, store.Contents(), kind, lease.work, outcome,
                        readings.reported);
      }
      if decision.Ok? && outcome.kind.OutcomeFailed? {
        RetriedEarlier(registry, old(store.Contents()), inspected, store.Contents(), kind, lease.work, definition, policy,
                       readings.retried);
      }
    }

    /** Acts on the instance it read: execute, finish, or give the item up. */
    method Decide(lease: WorkLease, instance: Instance, readings: Readings) returns (decision: Result<WorkDecision>)
      requires Ready() && M.IsView(registry, store.Contents(), lease.work.instanceID, instance)
      requires DecodeWork(kind, lease.work.payload).Some?
      modifies this`calls, this`replies, this`answers, store
      ensures Ready() && Extends(old(store.Contents()), store.Contents())
      ensures CalledOnceAtMost(old(calls), lease.work.id, readings.started)
      ensures decision == Ok(CompleteWork) ==>
                Settled(store.Contents(), kind, lease.work.instanceID, lease.work.payload.stepName,
                        lease.work.payload.attempt)
      ensures Justified(registry, handlers, kind, old(store.Contents()), store.Contents(), lease.work, readings, decision,
                        calls != old(calls), if answers == [] then Unclear("") else answers[|answers| - 1])
      ensures calm && Due(registry, handlers, kind, old(store.Contents()), lease, readings) ==>
                calls == old(calls) + [DueCall(registry, handlers, kind, old(store.Contents()), lease, readings)]
    {
      hide StoreOk, Extends, ValidRegistry, Settled, ReplayHistory, StartBehind, PolicyOf, DecodeDispatch,
           DecodeChildDispatch, AnswerRecorded, RetriedSince, StandingOf, ValidOutcome, IsNext, IsCurrent, Retried, Tale,
           HistoryOf, Welcome, Callable, RetryWelcome, Asked, ReadBack, IsReport;
      ghost var seen := store.Contents();
      ExtendsItself(seen);
      var work := lease.work;
      var payload := work.payload;
      ghost var h := HistoryOf(seen, work.instanceID);
      ghost var tale := Attempts(kind, payload.stepName, h);
      ReadTells(registry, seen, kind, work, instance);
      var pin := DefinitionKey(instance.definition.name, instance.definition.version);
      if pin !in registry.definitions {
        return Ok(DeadLetterWork(CodeOf(kind, BadDefinition)));
      }
      var definition := registry.definitions[pin];
      var policy := PolicyOf(kind, definition, payload);
      if policy.None? || payload.attempt > policy.value.retry.maxAttempts || instance.sequence < work.sequence ||
         (!kind.ChildProcessor? && policy.value.target !in handlers) {
        return Ok(DeadLetterWork(CodeOf(kind, BadDefinition)));
      }
      var standing := StandingOf(kind, instance, payload.stepName);
      if standing.None? {
        NothingAttempted(tale, payload);
        return Ok(DeadLetterWork(CodeOf(kind, BadState)));
      }
      var sameAttempt := standing.value.attempt == payload.attempt && standing.value.key == payload.key;
      match standing.value.stage {
        case Admissible =>
          if payload.attempt != Next32(standing.value.attempt) {
            return Ok(DeadLetterWork(CodeOf(kind, BadState)));
          }
          decision := Execute(lease, instance, definition, policy.value, readings);
        case InFlight =>
          if !sameAttempt {
            return Ok(DeadLetterWork(CodeOf(kind, BadState)));
          }
          decision := PersistOutcome(work, instance, definition, policy.value, Unclear(LostCode(kind)), readings);
        case KnownFailure =>
          if !sameAttempt {
            return Ok(DeadLetterWork(CodeOf(kind, BadState)));
          }
          FinishedIsRecorded(registry, seen, kind, work.instanceID, instance, payload.stepName);
          decision := ScheduleRetry(work, instance, definition, policy.value, readings.retried);
          SettledKept(seen, store.Contents(), kind, work.instanceID, payload.stepName, payload.attempt);
          if decision.Ok? {
            RetriedHere(registry, seen, seen, store.Contents(), kind, work, instance, definition, policy.value,
                        readings.retried);
          }
        case Concluded =>
          if !sameAttempt {
            return Ok(DeadLetterWork(CodeOf(kind, BadState)));
          }
          FinishedIsRecorded(registry, seen, kind, work.instanceID, instance, payload.stepName);
          decision := Ok(CompleteWork);
        case ChildEnded =>
          if !payload.ChildDocument? || payload.stepName !in instance.children ||
             instance.children[payload.stepName].childID != payload.childID ||
             instance.children[payload.stepName].definition != payload.definition {
            return Ok(DeadLetterWork(CodeOf(kind, BadState)));
          }
          EndedStanding(kind, instance, payload.stepName);
          EndedIsRecorded(registry, seen, work.instanceID, instance, payload.stepName, payload.attempt);
          decision := Ok(CompleteWork);
      }
    }

    /**
     * Processes one lease. Whatever others do and whatever replies are lost,
     * the handler is called at most once and only on a durable start, and the
     * decision is the one the history it read justifies.
     */
    method Process(lease: WorkLease, readings: Readings)
      returns (decision: Result<WorkDecision>, ghost seen: Tables, ghost read: bool)
      requires Ready()
      modifies this`calls, this`replies, this`answers, store
      ensures Ready() && StoreOk(seen) && Extends(old(store.Contents()), seen) && Extends(seen, store.Contents())
      ensures CalledOnceAtMost(old(calls), lease.work.id, readings.started)
      ensures decision == Ok(CompleteWork) ==>
                && !lease.work.payload.Text?
                && Settled(store.Contents(), kind, lease.work.instanceID, lease.work.payload.stepName,
                           lease.work.payload.attempt)
      ensures Answered(registry, handlers, kind, lease, readings, seen, store.Contents(), read, decision, calls != old(calls),
                        if answers == [] then Unclear("") else answers[|answers| - 1])
      ensures calm ==> seen == old(store.Contents())
      ensures calm && Acceptable(kind, lease) && DecodeWork(kind, lease.work.payload).Some? ==>
                (read <==> Readable(registry, old(store.Contents()), lease.work.instanceID))
      ensures calm && Acceptable(kind, lease) && Due(registry, handlers, kind, old(store.Contents()), lease, readings) ==>
                calls == old(calls) + [DueCall(registry, handlers, kind, old(store.Contents()), lease, readings)]
    {
      hide StoreOk, Extends, ValidRegistry, Settled, ReplayHistory, StartBehind, ValidLease, PolicyOf, DecodeDispatch,
           DecodeChildDispatch, Justified, IsCarried, StandingOf, Readable, Due, DueCall;
      seen, read := store.Contents(), false;
      ExtendsItself(store.Contents());
      DueReads(registry, handlers, kind, seen, lease, readings);
      if !ValidLease(lease) || lease.work.kind != HandOff.WorkKindOf(kind) {
        return Err(InvalidProcessor), seen, read;
      }
      var work := lease.work;
      var payload := work.payload;
      if DecodeWork(kind, payload).None? {
        return Ok(DeadLetterWork(CodeOf(kind, BadDispatch))), seen, read;
      }
      var loaded := Inspect(work.instanceID);
      seen := store.Contents();
      ExtendsItself(seen);
      if loaded.Err? {
        if calm {
          NotReplayed(registry, seen, work.instanceID);
        }
        return Err(loaded.error), seen, read;
      }
      var instance := loaded.value;
      read := true;
      InspectedIdentity(registry, seen, work.instanceID, instance);
      decision := Decide(lease, instance, readings);
      ReadReplays(registry, seen, work.instanceID, instance);
    }
  }

  lemma RetriedHere(registry: Registry, before: Tables, mid: Tables, after: Tables, kind: ProcessorKind, work: PendingWork,
                    view: Instance, d: Definition, policy: Policy, reading: Time)
    requires !work.payload.Text? && StoreOk(mid) && Extends(before, mid) && Extends(mid, after)
    requires M.IsView(registry, mid, work.instanceID, view) && Retried(after, kind, work, view, d, policy, reading)
    ensures RetriedSince(registry, before, after, kind, work, d, policy, reading)
  {
    hide StoreOk, Extends, M.IsView, Retried;
  }

  lemma RetriedEarlier(registry: Registry, before: Tables, since: Tables, after: Tables, kind: ProcessorKind,
                       work: PendingWork, d: Definition, policy: Policy, reading: Time)
    requires !work.payload.Text? && Extends(before, since)
    requires RetriedSince(registry, since, after, kind, work, d, policy, reading)
    ensures RetriedSince(registry, before, after, kind, work, d, policy, reading)
  {
    hide StoreOk, Extends, M.IsView, Retried;
    var mid, view :| StoreOk(mid) && Extends(since, mid) && Extends(mid, after) &&
                     M.IsView(registry, mid, work.instanceID, view) &&
                     Retried(after, kind, work, view, d, policy, reading);
    ExtendsTransitive(before, since, mid);
  }

  // --- calling ------------------------------------------------------------

  /** What the handler is called with when the start is made on this view. */
  function Asked(kind: ProcessorKind, lease: WorkLease, view: Instance, policy: Policy, readings: Readings): Request
    requires !lease.work.payload.Text?
  {
    var standing := StandingOf(kind, view, lease.work.payload.stepName);
    Request(view.id, view.definition, lease.work.payload, readings.started, readings.started + policy.timeout,
            if standing.Some? then standing.value.input else EMPTY, Routing(lease.work.tenantID, lease.work.correlationID))
  }

  /** The start can be planned on the current view, the store does not refuse it, and the request will be in order. */
  predicate Callable(registry: Registry, db: Tables, kind: ProcessorKind, lease: WorkLease, view: Instance, d: Definition,
                     policy: Policy, readings: Readings)
  {
    && StoreOk(db) && ValidRegistry(registry) && M.IsView(registry, db, lease.work.instanceID, view)
    && d.Reference() == view.definition && DecodeWork(kind, lease.work.payload).Some?
    && PolicyOf(kind, d, lease.work.payload) == Some(policy) && lease.work.payload.attempt <= policy.retry.maxAttempts
    && var start := I.PlanStart(registry, I.Run(kind, lease, I.Leased), view, readings.started);
       start.Some? && start.value.events != [] && StageOutcomeOf(db, start.value).Applied? &&
       Asked(kind, lease, view, policy, readings).input.Size() <= policy.inputLimit
  }

  /** What the start leaves of the step, whichever processor makes it. */
  lemma StartStands(registry: Registry, kind: ProcessorKind, lease: WorkLease, view: Instance, d: Definition, policy: Policy,
                    now: Time)
    requires ValidRegistry(registry) && A.Settled(registry, view) && d.Reference() == view.definition
    requires DecodeWork(kind, lease.work.payload).Some? && PolicyOf(kind, d, lease.work.payload) == Some(policy)
    requires I.PlanStart(registry, I.Run(kind, lease, I.Leased), view, now).Some?
    ensures var payload := lease.work.payload;
            var after := ApplyAll(registry, view, I.PlanStart(registry, I.Run(kind, lease, I.Leased), view, now).value.events);
            && StandingOf(kind, view, payload.stepName).Some?
            && after.Ok? && after.value.id == view.id && after.value.definition == view.definition
            && after.value.pendingOperator.NoAction?
            && StandingOf(kind, after.value, payload.stepName) ==
               Some(Standing(InFlight, payload.attempt, payload.key, now + policy.timeout, false,
                             StandingOf(kind, view, payload.stepName).value.input))
  {
    hide ApplyAll, ValidRegistry, ValidTransition, ValidEvent, ValidLease, InsideLease;
    A.PinnedSteps(registry, view, d);
    var spec := StartSpec(I.StartID(kind, lease.work.id), lease, view, d, now);
    match kind {
      case ActivityProcessor => S.ActivityStartSound(registry, spec);
      case CompensationProcessor => S.CompensationStartSound(registry, spec);
      case ChildProcessor => S.ChildStartSound(registry, spec);
    }
  }

  lemma StartAddresses(registry: Registry, run: I.Run, view: Instance, now: Time)
    requires I.PlanStart(registry, run, view, now).Some?
    ensures var t := I.PlanStart(registry, run, view, now).value;
            t.instanceID == view.id && ValidTransition(t) && ValidEvents(t.events) && t.events != []
  {
    hide ValidTransition, ValidEvent, ValidLease, FindStep, InsideLease;
  }

  /** The request of a start made on the current view is in order. */
  lemma AskedInOrder(registry: Registry, kind: ProcessorKind, lease: WorkLease, view: Instance, d: Definition,
                     policy: Policy, readings: Readings)
    requires ValidRegistry(registry) && A.Settled(registry, view) && d.Reference() == view.definition
    requires DecodeWork(kind, lease.work.payload).Some? && PolicyOf(kind, d, lease.work.payload) == Some(policy)
    requires lease.work.payload.attempt <= policy.retry.maxAttempts
    requires I.PlanStart(registry, I.Run(kind, lease, I.Leased), view, readings.started).Some?
    requires Asked(kind, lease, view, policy, readings).input.Size() <= policy.inputLimit
    ensures ValidRequest(Asked(kind, lease, view, policy, readings), policy)
  {
    hide ValidRegistry, A.Settled, ValidDefinition, I.PlanStart, ValidIdent, ValidReference, StableName;
    HandOff.PinIsValid(registry, view, d);
    HandOff.DecodedName(kind, lease.work.payload);
    PolicyInOrder(kind, d, lease.work.payload);
    StartDated(registry, kind, lease, view, readings.started);
  }

  lemma PolicyInOrder(kind: ProcessorKind, d: Definition, payload: Payload)
    requires ValidDefinition(d) && !payload.Text? && PolicyOf(kind, d, payload).Some?
    ensures var policy := PolicyOf(kind, d, payload).value;
            policy.timeout > 0 && ValidPayloadLimit(policy.inputLimit) && ValidPayloadLimit(policy.resultLimit)
  {
    hide StableName, BranchesResolve, ValidControlFlow, WellNamedBranches, ValidReference;
    var wanted := if kind.ChildProcessor? then StepChild else StepActivity;
    var step := FindStep(d.steps, payload.stepName, wanted).value;
    assert step in d.steps && ValidStep(step);
  }

  lemma StartDated(registry: Registry, kind: ProcessorKind, lease: WorkLease, view: Instance, now: Time)
    requires I.PlanStart(registry, I.Run(kind, lease, I.Leased), view, now).Some?
    ensures now != ZERO_TIME && ValidIdent(view.id)
  {
    hide ValidTransition, ValidLease, FindStep, InsideLease, ValidKindFields, ValidIdent;
    var t := I.PlanStart(registry, I.Run(kind, lease, I.Leased), view, now).value;
    assert ValidEvent(t.events[0]);
  }

  /** Once a callable start is committed, the history replays to the running attempt and the request is as asked. */
  lemma CallableStarts(registry: Registry, db: Tables, kind: ProcessorKind, lease: WorkLease, view: Instance,
                       d: Definition, policy: Policy, readings: Readings)
    requires Callable(registry, db, kind, lease, view, d, policy, readings)
    ensures var start := I.PlanStart(registry, I.Run(kind, lease, I.Leased), view, readings.started);
            var id, name := lease.work.instanceID, lease.work.payload.stepName;
            && start.Some? && start.value.events != [] && !StageOutcomeOf(db, start.value).Refused?
            && id in Commit(db, start.value).instances
            && var after := ReplayHistory(registry, HistoryOf(Commit(db, start.value), id));
               && after.Ok? && after.value.id == view.id && after.value.definition == view.definition
               && StandingOf(kind, after.value, name).Some?
               && var standing := StandingOf(kind, after.value, name).value;
                  && standing.dueAt == readings.started + policy.timeout
                  && standing.input == Asked(kind, lease, view, policy, readings).input
    ensures ValidRequest(Asked(kind, lease, view, policy, readings), policy)
  {
    hide StoreOk, ValidRegistry, ApplyAll, HistoryOf, I.PlanStart, A.Settled, ValidRequest, ValidTransition, ValidEvents,
         PolicyOf, DecodeDispatch, DecodeChildDispatch, StandingOf, Commit;
    var run := I.Run(kind, lease, I.Leased);
    var start := I.PlanStart(registry, run, view, readings.started).value;
    M.ViewFacts(registry, db, lease.work.instanceID, view);
    StartAddresses(registry, run, view, readings.started);
    StartStands(registry, kind, lease, view, d, policy, readings.started);
    M.AppliedHistory(registry, db, view, start);
    AskedInOrder(registry, kind, lease, view, d, policy, readings);
  }

  // --- reading ------------------------------------------------------------

  /** The lease is valid and for this processor's kind of work. */
  predicate Acceptable(kind: ProcessorKind, lease: WorkLease) {
    ValidLease(lease) && lease.work.kind == HandOff.WorkKindOf(kind)
  }

  /** The instance is stored and its history replays. */
  predicate Readable(registry: Registry, db: Tables, id: Ident) {
    id in db.instances && Replays(registry, HistoryOf(db, id))
  }

  /** The next attempt of a carried step can be called on the stored history as it stands. */
  predicate Due(registry: Registry, handlers: set<string>, kind: ProcessorKind, db: Tables, lease: WorkLease,
                readings: Readings)
  {
    && Readable(registry, db, lease.work.instanceID) && !lease.work.payload.Text?
    && var h := HistoryOf(db, lease.work.instanceID);
       && IsCarried(registry, handlers, kind, h, lease.work)
       && IsNext(Attempts(kind, lease.work.payload.stepName, h), lease.work.payload.attempt)
       && Callable(registry, db, kind, lease, ReplayHistory(registry, h).value, DefinitionAt(registry, h).value,
                   PolicyAt(registry, kind, h, lease.work.payload).value, readings)
  }

  lemma DueReads(registry: Registry, handlers: set<string>, kind: ProcessorKind, db: Tables, lease: WorkLease,
                 readings: Readings)
    ensures Due(registry, handlers, kind, db, lease, readings) ==>
              Readable(registry, db, lease.work.instanceID) && DecodeWork(kind, lease.work.payload).Some?
  {
    hide Readable, IsCarried, IsNext, StoreOk, ValidRegistry, M.IsView, PolicyOf, I.PlanStart;
  }

  /** The call that is due. */
  function DueCall(registry: Registry, handlers: set<string>, kind: ProcessorKind, db: Tables, lease: WorkLease,
                   readings: Readings): Request
    requires Due(registry, handlers, kind, db, lease, readings)
  {
    var h := HistoryOf(db, lease.work.instanceID);
    Asked(kind, lease, ReplayHistory(registry, h).value, PolicyAt(registry, kind, h, lease.work.payload).value, readings)
  }

  /** What a call answers: refused leases, undecodable work, and what the history justifies if it could be read. */
  ghost predicate Answered(registry: Registry, handlers: set<string>, kind: ProcessorKind, lease: WorkLease,
                           readings: Readings, seen: Tables, after: Tables, read: bool, decision: Result<WorkDecision>,
                           called: bool, answer: Outcome)
  {
    if !Acceptable(kind, lease) then decision == Err(InvalidProcessor) && !called
    else if DecodeWork(kind, lease.work.payload).None? then
      decision == Ok(DeadLetterWork(CodeOf(kind, BadDispatch))) && !called
    else if !read then decision.Err? && !called
    else
      !lease.work.payload.Text? &&
      Justified(registry, handlers, kind, seen, after, lease.work, readings, decision, called, answer)
  }

  lemma ReadReplays(registry: Registry, db: Tables, id: Ident, view: Instance)
    requires ReplayHistory(registry, HistoryOf(db, id)) == Ok(view)
    ensures Replays(registry, HistoryOf(db, id)) && (id in db.instances ==> Readable(registry, db, id))
  {
    hide ApplyAll, HistoryOf;
  }

  lemma NotReplayed(registry: Registry, db: Tables, id: Ident)
    requires id !in db.instances || ReplayHistory(registry, HistoryOf(db, id)).Err?
    ensures !Readable(registry, db, id)
  {
    hide ReplayHistory;
  }

  lemma NothingAttempted(tale: seq<HistoryEvent>, payload: Payload)
    requires tale == [] && !payload.Text?
    ensures !IsNext(tale, payload.attempt) && !IsCurrent(tale, payload.attempt, payload.key) && !IsOver(tale, payload)
  {
  }

  /** A standing that shows an ended child is a child's. */
  lemma EndedStanding(kind: ProcessorKind, view: Instance, name: string)
    requires StandingOf(kind, view, name).Some? && StandingOf(kind, view, name).value.stage.ChildEnded?
    ensures kind.ChildProcessor? && Ended(view, name)
  {
  }

  /** What the view that was read says of the work item, in the history's own terms. */
  lemma ReadTells(registry: Registry, db: Tables, kind: ProcessorKind, work: PendingWork, view: Instance)
    requires StoreOk(db) && M.IsView(registry, db, work.instanceID, view) && DecodeWork(kind, work.payload).Some?
    ensures !work.payload.Text? && work.payload.attempt > 0
    ensures var h, name := HistoryOf(db, work.instanceID), work.payload.stepName;
            var tale, standing := Attempts(kind, name, h), StandingOf(kind, view, name);
            && Replays(registry, h) && view.id == work.instanceID && view.sequence == |h|
            && view.definition == F.PinnedDefinition(h) && StandingSaid(tale, standing)
            && (standing.Some? ==>
                  && (IsNext(tale, work.payload.attempt) <==>
                        standing.value.stage.Admissible? && work.payload.attempt == Next32(standing.value.attempt))
                  && (IsCurrent(tale, work.payload.attempt, work.payload.key) <==>
                        (standing.value.stage.InFlight? || standing.value.stage.KnownFailure? || standing.value.stage.Concluded?)
                        && standing.value.attempt == work.payload.attempt && standing.value.key == work.payload.key))
            && (kind.ChildProcessor? && tale != [] ==>
                  && name in view.children && view.children[name].childID == tale[0].successorID
                  && view.children[name].definition == tale[0].definition)
  {
    hide StoreOk, ReplayHistory, HistoryOf, Numbered, StandingSaid, IsNext, IsCurrent, Tale, StandingOf;
    var h, name := HistoryOf(db, work.instanceID), work.payload.stepName;
    StoreTheorems.StoredHistoryValid(db, work.instanceID);
    InspectedIdentity(registry, db, work.instanceID, view);
    ReadReplays(registry, db, work.instanceID, view);
    HandOff.DecodedName(kind, work.payload);
    ReplayedTale(registry, h, kind, name);
    ToldStanding(kind, h, view, name);
    var tale, standing := Attempts(kind, name, h), StandingOf(kind, view, name);
    if standing.Some? {
      AttemptShown(tale, standing.value, work.payload.attempt, work.payload.key);
    }
  }
}
