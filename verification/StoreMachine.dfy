/** The store as statements: updates of mutable tables, inside transactions. */
module StoreMachine {
  import opened Basics
  import opened Definitions
  import opened Events
  import opened Transitions
  import opened Store

  /** What becomes of the final commit of a staged transaction and of its reply. */
  datatype Fate = Delivered | ReplyLost | CommitLost

  datatype CommitReply = Acknowledged | NotCommitted(error: Error) | OutcomeUnknown

  /** Inserts a batch of history rows; a position already taken violates the primary key. */
  method InsertEvents(history: map<EventKey, HistoryEvent>, id: Ident, events: seq<HistoryEvent>)
    returns (ok: bool, after: map<EventKey, HistoryEvent>)
    requires forall i, j | 0 <= i < j < |events| :: events[i].sequence != events[j].sequence
    ensures ok <==> forall k | 0 <= k < |events| :: EventKey(id, events[k].sequence) !in history
    ensures ok ==> after == WithEvents(history, id, events)
  {
    after := history;
    for n := 0 to |events|
      invariant forall k | 0 <= k < n :: EventKey(id, events[k].sequence) !in history
      invariant after == WithEvents(history, id, events[..n])
      invariant forall key :: key in after <==>
                  key in history || exists k | 0 <= k < n :: key == EventKey(id, events[k].sequence)
    {
      var key := EventKey(id, events[n].sequence);
      if key in after {
        return false, after;
      }
      assert events[..n + 1][..n] == events[..n];
      after := after[key := events[n]];
    }
    assert events[..|events|] == events;
    ok := true;
  }

  method InsertWork(work: map<Ident, WorkRow>, items: seq<PendingWork>)
    returns (ok: bool, after: map<Ident, WorkRow>)
    requires DistinctWork(items)
    ensures ok <==> forall k | 0 <= k < |items| :: items[k].id !in work
    ensures ok ==> after == WithWork(work, items)
  {
    after := work;
    for n := 0 to |items|
      invariant forall k | 0 <= k < n :: items[k].id !in work
      invariant after == WithWork(work, items[..n])
      invariant forall id :: id in after <==> id in work || exists k | 0 <= k < n :: items[k].id == id
    {
      if items[n].id in after {
        return false, after;
      }
      assert items[..n + 1][..n] == items[..n];
      after := after[items[n].id := NewRow(items[n])];
    }
    assert items[..|items|] == items;
    ok := true;
  }

  method PinAfter(pin: DefinitionRef, events: seq<HistoryEvent>) returns (next: DefinitionRef)
    ensures next == NextPin(pin, events)
  {
    next := pin;
    for n := 0 to |events|
      invariant next == NextPin(pin, events[..n])
    {
      assert events[..n + 1][..n] == events[..n];
      if IsMigration(events[n].kind) {
        next := events[n].definition;
      }
    }
    assert events[..|events|] == events;
  }

  lemma PlanShape(t: Transition)
    requires ValidTransition(t)
    ensures t.events != [] && DistinctWork(t.work)
    ensures forall i, j | 0 <= i < j < |t.events| :: t.events[i].sequence != t.events[j].sequence
    ensures forall k | 0 <= k < |t.events| :: t.events[k].sequence == t.expectedSequence + 1 + k
  {
    hide Anchored, TimesOrdered, StartsRight, EventBytes, WorkBytes;
  }

  /** One transaction on its own view of the tables; a refusal discards the view. */
  method StageTransition(db: Tables, t: Transition) returns (outcome: StageOutcome, after: Tables)
    requires ValidTransition(t)
    ensures t.events != [] && outcome == StageOutcomeOf(db, t) && after == Commit(db, t)
  {
    hide ValidTransition, WithEvents, WithWork, NextPin, DistinctWork, IsTerminalEvent;
    PlanShape(t);
    after := db;
    if LastEvent(t).sequence > MAX_STORED_SEQUENCE {
      return Refused(InvalidStoreRequest), db;
    }
    if t.id in db.transitions {
      if db.transitions[t.id].plan == t {
        return ExactReplay, db;
      }
      return Refused(DuplicateTransition), db;
    }
    var row := InstanceRow(t.definition, 0, t.events[0].occurredAt, t.events[0].occurredAt, None);
    if t.expectedSequence == 0 {
      if t.instanceID in db.instances {
        return Refused(StoreConflict), db;
      }
    } else {
      if t.instanceID !in db.instances {
        return Refused(StoreNotFound), db;
      }
      row := db.instances[t.instanceID];
      if row.sequence != t.expectedSequence || row.definition != t.definition {
        return Refused(StoreConflict), db;
      }
    }
    var last := LastEvent(t);
    var eventsStored, history := InsertEvents(db.history, t.instanceID, t.events);
    if !eventsStored {
      return Refused(ConstraintViolation), db;
    }
    var workStored, work := InsertWork(db.work, t.work);
    if !workStored {
      return Refused(ConstraintViolation), db;
    }
    var pin := PinAfter(t.definition, t.events);
    var archived := row.archivedAt;
    if archived.None? && IsTerminalEvent(last.kind) {
      archived := Some(last.occurredAt);
    }
    row := row.(definition := pin, sequence := last.sequence, updatedAt := last.occurredAt, archivedAt := archived);
    outcome := Applied;
    after := Tables(db.instances[t.instanceID := row],
                    db.transitions[t.id := TransitionRow(t, last.sequence, last.occurredAt)], history, work,
                    db.resolutions);
  }

  lemma ChosenStored(db: Tables, r: ClaimRequest)
    ensures Chosen(db, r) <= db.work.Keys
  {
    hide Precedes;
  }

  class PostgresStore {
    var instances: map<Ident, InstanceRow>
    var transitions: map<Ident, TransitionRow>
    var history: map<EventKey, HistoryEvent>
    var work: map<Ident, WorkRow>
    var resolutions: map<Ident, Resolution>

    function Contents(): Tables
      reads this
    {
      Tables(instances, transitions, history, work, resolutions)
    }

    constructor ()
      ensures Contents() == NO_TABLES
    {
      instances, transitions, history, work, resolutions := map[], map[], map[], map[], map[];
    }

    method Publish(db: Tables)
      modifies this
      ensures Contents() == db
    {
      instances, transitions, history, work, resolutions :=
        db.instances, db.transitions, db.history, db.work, db.resolutions;
    }

    /**
     * Commits one plan. Only a plan that was really staged reaches the final
     * commit, whose reply may be lost on either side of durability.
     */
    method Commit(t: Transition, fate: Fate) returns (reply: CommitReply)
      requires ValidTransition(t)
      modifies this
      ensures t.events != []
      ensures reply == (match StageOutcomeOf(old(Contents()), t)
                        case Refused(error) => NotCommitted(error)
                        case ExactReplay => Acknowledged
                        case Applied => if fate.Delivered? then Acknowledged else OutcomeUnknown)
      ensures Contents() == if fate.CommitLost? then old(Contents()) else Store.Commit(old(Contents()), t)
    {
      hide ValidTransition, StageOutcomeOf, Store.Staged;
      var outcome, staged := StageTransition(Contents(), t);
      match outcome {
        case Refused(error) => return NotCommitted(error);
        case ExactReplay => return Acknowledged;
        case Applied =>
      }
      if fate.CommitLost? {
        return OutcomeUnknown;
      }
      Publish(staged);
      reply := if fate.Delivered? then Acknowledged else OutcomeUnknown;
    }

    method ReconcileTransition(t: Transition) returns (r: Reconciled)
      ensures r == Reconcile(Contents(), t)
    {
      if t.id !in transitions {
        return TransitionMissing;
      }
      r := if transitions[t.id].plan == t then TransitionCommitted else TransitionConflicting;
    }

    /** Leases the chosen rows in one statement and returns them as leases. */
    method Claim(r: ClaimRequest) returns (leases: Option<map<Ident, Option<WorkLease>>>)
      requires ValidClaim(r)
      modifies this`work
      ensures Contents() == Store.Claim(old(Contents()), r)
      ensures leases.Some? <==> ClaimFits(old(Contents()), r)
      ensures leases.Some? ==>
                && leases.value.Keys == Chosen(old(Contents()), r)
                && forall id | id in leases.value :: id in work && leases.value[id] == LeaseOf(work[id], r.now)
    {
      hide Chosen;
      var before := Contents();
      ChosenStored(before, r);
      if !ClaimFits(before, r) {
        return None;
      }
      var chosen := Chosen(before, r);
      work := map id | id in work :: if id in chosen then ClaimedRow(work[id], r) else work[id];
      leases := Some(map id | id in chosen :: LeaseOf(work[id], r.now));
    }

    /** Sets the expiry anew from now, which can also shorten the lease. */
    method Renew(r: Renewal) returns (lease: Result<Option<WorkLease>>)
      requires ValidRenewal(r)
      modifies this`work
      ensures Contents() == Store.Renew(old(Contents()), r)
      ensures if Renewable(old(Contents()), r) then lease == Ok(LeaseOf(Contents().work[r.workID], r.now))
              else lease == Err(StaleWorkLease)
    {
      if r.workID !in work || !work[r.workID].state.WorkLeased? || work[r.workID].owner != r.owner ||
         work[r.workID].token != r.token || work[r.workID].expiresAt <= r.now ||
         work[r.workID].work.deadline <= r.now {
        return Err(StaleWorkLease);
      }
      var row := work[r.workID];
      row := row.(expiresAt := Min(r.now + r.extendBy, row.work.deadline));
      work := work[r.workID := row];
      lease := Ok(LeaseOf(row, r.now));
    }

    method Complete(c: Completed) returns (failure: Option<Error>)
      modifies this`work
      ensures Contents() == Store.Complete(old(Contents()), c)
      ensures failure.None? <==> Live(old(Contents()), c.workID, c.owner, c.token, c.at)
    {
      if c.workID !in work || !work[c.workID].state.WorkLeased? || work[c.workID].owner != c.owner ||
         work[c.workID].token != c.token || work[c.workID].expiresAt <= c.at {
        return Some(StaleWorkLease);
      }
      var row := work[c.workID];
      row := row.(state := WorkFinished, completedAt := c.at, owner := NO_IDENT, expiresAt := ZERO_TIME);
      work := work[c.workID := row];
      failure := None;
    }

    method Fail(f: WorkFailure) returns (failure: Option<Error>)
      requires ValidFailure(f)
      modifies this`work
      ensures Contents() == Store.Fail(old(Contents()), f)
      ensures failure.None? <==> Live(old(Contents()), f.workID, f.owner, f.token, f.at)
    {
      if f.workID !in work || !work[f.workID].state.WorkLeased? || work[f.workID].owner != f.owner ||
         work[f.workID].token != f.token || work[f.workID].expiresAt <= f.at {
        return Some(StaleWorkLease);
      }
      var row := work[f.workID];
      row := row.(failureCode := f.code, owner := NO_IDENT, expiresAt := ZERO_TIME);
      if f.retryAt.Some? {
        row := row.(state := WorkDue, work := row.work.(availableAt := f.retryAt.value));
      } else {
        row := row.(state := WorkDeadLettered, completedAt := f.at);
      }
      work := work[f.workID := row];
      failure := None;
    }

    /** Records one operator command on a dead letter; the unique fence refuses a second one. */
    method ResolveDeadLetter(r: Resolution) returns (failure: Option<Error>)
      requires ValidResolution(r)
      modifies this`work, this`resolutions
      ensures failure == ResolveFailure(old(Contents()), r)
      ensures Contents() == Resolve(old(Contents()), r)
    {
      hide ValidResolution;
      if r.commandID in resolutions {
        return if resolutions[r.commandID] == r then None else Some(StoreConflict);
      }
      if r.workID !in work || !work[r.workID].state.WorkDeadLettered? || work[r.workID].token != r.token {
        return Some(StaleWorkLease);
      }
      if exists c | c in resolutions :: resolutions[c].workID == r.workID && resolutions[c].token == r.token {
        return Some(StoreConflict);
      }
      resolutions := resolutions[r.commandID := r];
      if r.action.DeadLetterRetry? {
        var row := work[r.workID];
        row := row.(state := WorkDue, work := row.work.(availableAt := r.retryAt, deadline := r.deadline),
                    failureCode := "", completedAt := ZERO_TIME, owner := NO_IDENT, expiresAt := ZERO_TIME);
        work := work[r.workID := row];
      }
      failure := None;
    }
  }
}
