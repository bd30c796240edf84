/**
 * From row to lease: when a work item can be claimed, after each operation that
 * puts it in a new state.
 */
module Claimability {
  import opened Basics
  import opened Events
  import opened Transitions
  import opened Store
  import opened StoreInvariants
  import opened StoreRuns
  import ClaimFairness

  /** The item can be claimed at exactly the times of this window. */
  ghost predicate ClaimableWithin(db: Tables, id: Ident, from: Time, until: Time) {
    forall now: Time :: id in Candidates(db, now) <==> from <= now < until
  }

  ghost predicate NeverClaimable(db: Tables, id: Ident) {
    forall now: Time :: id !in Candidates(db, now)
  }

  /** The row alone decides: due items from their time on, leased ones once the lease has expired, others never. */
  lemma RowDecides(db: Tables, id: Ident)
    requires id in db.work
    ensures match db.work[id].state
            case WorkDue => ClaimableWithin(db, id, db.work[id].work.availableAt, db.work[id].work.deadline)
            case WorkLeased => ClaimableWithin(db, id, db.work[id].expiresAt, db.work[id].work.deadline)
            case _ => NeverClaimable(db, id)
  {
  }

  /** A committed plan's work is due from its own time until its deadline, as the plan says. */
  lemma CommittedWorkIsDue(db: Tables, t: Transition, k: nat)
    requires StoreOk(db) && Applicable(db, t) && k < |t.work| && forall j | 0 <= j < |t.work| :: ValidWork(t.work[j])
    ensures t.events != [] && t.work[k].id in Commit(db, t).work
    ensures var row := Commit(db, t).work[t.work[k].id];
            row.work == t.work[k] && row.state.WorkDue? && row.token == 0 && row.attempts == 0
    ensures ClaimableWithin(Commit(db, t), t.work[k].id, t.work[k].availableAt, t.work[k].deadline)
  {
    hide StoreOk, StageFailure, StagedInstance, ContiguousFrom, TimesOrdered, Anchored, StartsRight, ValidEvents, ValidWork,
         Eligible, WithEvents;
    WithWorkAt(db.work, t.work);
    RowDecides(Commit(db, t), t.work[k].id);
  }

  /** The row is leased to this owner under this token, and the lease runs beyond this time. */
  predicate Holds(db: Tables, id: Ident, owner: Ident, token: nat, now: Time) {
    && id in db.work && db.work[id].state == WorkLeased && db.work[id].expiresAt > now
    && db.work[id].owner == owner && db.work[id].token == token
  }

  /** The fence, exactly: a finish takes effect only and always for the one that holds the lease. */
  lemma FenceIsExact(db: Tables, c: Completed, f: WorkFailure, r: Renewal)
    ensures Complete(db, c) != db <==> Holds(db, c.workID, c.owner, c.token, c.at)
    ensures Fail(db, f) != db <==> Holds(db, f.workID, f.owner, f.token, f.at)
    ensures Renewable(db, r) <==> Holds(db, r.workID, r.owner, r.token, r.now) && db.work[r.workID].work.deadline > r.now
    ensures !Renewable(db, r) ==> Renew(db, r) == db
  {
    if Live(db, c.workID, c.owner, c.token, c.at) {
      assert Complete(db, c).work[c.workID].state != db.work[c.workID].state;
    }
    if Live(db, f.workID, f.owner, f.token, f.at) {
      assert Fail(db, f).work[f.workID].state != db.work[f.workID].state;
    }
  }

  /** A claimed item is claimable again only when its lease has run out. */
  lemma ClaimedUntilExpiry(db: Tables, r: ClaimRequest, id: Ident)
    requires ClaimFits(db, r) && id in Chosen(db, r)
    ensures id in Claim(db, r).work && Claim(db, r).work[id].work == db.work[id].work
    ensures ClaimableWithin(Claim(db, r), id, Min(r.now + r.duration, db.work[id].work.deadline), db.work[id].work.deadline)
  {
    hide Precedes, Eligible, ClaimFits;
    RowDecides(Claim(db, r), id);
  }

  /** A renewal moves the time from which others may claim. */
  lemma RenewedUntilExpiry(db: Tables, r: Renewal)
    requires Renewable(db, r)
    ensures ClaimableWithin(Renew(db, r), r.workID, Min(r.now + r.extendBy, db.work[r.workID].work.deadline),
                            db.work[r.workID].work.deadline)
  {
    hide Eligible;
    RowDecides(Renew(db, r), r.workID);
  }

  lemma CompletedIsOver(db: Tables, c: Completed)
    requires Live(db, c.workID, c.owner, c.token, c.at)
    ensures c.workID in Complete(db, c).work && Complete(db, c).work[c.workID].completedAt == c.at
    ensures NeverClaimable(Complete(db, c), c.workID) && c.workID !in Listed(Complete(db, c))
  {
    hide Eligible, FenceResolved;
    RowDecides(Complete(db, c), c.workID);
  }

  /** A release makes the item due from the retry time on; a dead letter is listed and never claimed. */
  lemma FailedWork(db: Tables, f: WorkFailure)
    requires StoreOk(db) && ValidFailure(f) && Live(db, f.workID, f.owner, f.token, f.at)
    ensures f.workID in Fail(db, f).work && Fail(db, f).work[f.workID].failureCode == f.code
    ensures f.retryAt.Some? ==>
              ClaimableWithin(Fail(db, f), f.workID, f.retryAt.value, db.work[f.workID].work.deadline) &&
              f.workID !in Listed(Fail(db, f))
    ensures f.retryAt.None? ==>
              NeverClaimable(Fail(db, f), f.workID) && f.workID in Listed(Fail(db, f)) &&
              Fail(db, f).work[f.workID].completedAt == f.at
  {
    hide Eligible, HistoryOk, WorkOk, WorkAnchored, StableName, ValidIdent;
    RowDecides(Fail(db, f), f.workID);
  }

  /** A resolution hides the item: retried it is due in its new window, discarded it is never claimed again. */
  lemma ResolvedWork(db: Tables, r: Resolution)
    requires ValidResolution(r) && ResolveFailure(db, r).None? && r.commandID !in db.resolutions
    ensures r.workID in Resolve(db, r).work && r.workID !in Listed(Resolve(db, r))
    ensures r.commandID in Resolve(db, r).resolutions && Resolve(db, r).resolutions[r.commandID] == r
    ensures r.action.DeadLetterRetry? ==>
              ClaimableWithin(Resolve(db, r), r.workID, r.retryAt, r.deadline) &&
              Resolve(db, r).work[r.workID].work == db.work[r.workID].work.(availableAt := r.retryAt, deadline := r.deadline)
    ensures r.action.DeadLetterDiscard? ==> NeverClaimable(Resolve(db, r), r.workID)
  {
    hide Eligible, StableName, ValidIdent;
    RowDecides(Resolve(db, r), r.workID);
    var later := Resolve(db, r);
    assert later.resolutions[r.commandID].workID == r.workID && later.resolutions[r.commandID].token == r.token;
    assert FenceResolved(later, r.workID, r.token);
  }

  /** A commit of valid work on the current position is refused only for a used identity, a used work item or a full column. */
  lemma AppliesExactly(db: Tables, t: Transition)
    requires StoreOk(db) && ValidTransition(t)
    ensures StageOutcomeOf(db, t).Applied? <==>
            && t.id !in db.transitions && t.expectedSequence + |t.events| <= MAX_STORED_SEQUENCE
            && (if t.expectedSequence == 0 then t.instanceID !in db.instances
                else t.instanceID in db.instances && db.instances[t.instanceID].sequence == t.expectedSequence &&
                     db.instances[t.instanceID].definition == t.definition)
            && forall k | 0 <= k < |t.work| :: t.work[k].id !in db.work
    ensures StageOutcomeOf(db, t).ExactReplay? <==>
            t.id in db.transitions && db.transitions[t.id].plan == t && t.expectedSequence + |t.events| <= MAX_STORED_SEQUENCE
  {
    hide WorkOk, WorkAnchored, ResolutionsOk, RowsAgree, PlansStored, Tiled, ValidEvent, TimesOrdered, Anchored, DistinctWork,
         StartsRight, Full;
  }
}
