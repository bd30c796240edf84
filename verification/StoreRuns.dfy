/** Every run of store operations keeps the invariants, and what is durable stays durable. */
module StoreRuns {
  import opened Basics
  import opened Events
  import opened Transitions
  import opened Store
  import opened StoreInvariants

  // --- each operation -----------------------------------------------------

  /** Claims, finishes and resolutions do not touch histories. */
  predicate SameHistories(db: Tables, later: Tables) {
    later.instances == db.instances && later.transitions == db.transitions && later.history == db.history
  }

  lemma HistoriesUntouched(db: Tables, later: Tables)
    requires HistoryOk(db) && SameHistories(db, later)
    ensures HistoryOk(later)
  {
    hide RowAgrees, Covers, Full;
    forall id | id in later.instances ensures RowAgrees(later.instances[id], HistoryOf(later, id)) {
      assert HistoryOf(later, id) == HistoryOf(db, id);
    }
    forall id | id in later.transitions ensures PlanStored(later, later.transitions[id]) {
      assert PlanStored(db, db.transitions[id]);
    }
  }

  lemma NewRowOk(w: PendingWork)
    requires ValidWork(w)
    ensures WorkRowOk(NewRow(w))
  {
  }

  /** The work a plan creates hangs off one of its own events. */
  lemma NewWorkAnchored(db: Tables, t: Transition, w: PendingWork)
    requires ContiguousFrom(t.events, t.instanceID, t.expectedSequence + 1) && Anchored(t, w)
    requires StoredAt(db.history, t.instanceID, t.expectedSequence + 1, t.events)
    ensures EventKey(w.instanceID, w.sequence) in db.history
  {
  }

  lemma CommitKeepsWork(db: Tables, t: Transition)
    requires StoreOk(db) && Applicable(db, t) && forall k | 0 <= k < |t.work| :: ValidWork(t.work[k])
    ensures t.events != [] && StageFailure(db, t).None?
    ensures WorkOk(Staged(db, t)) && WorkAnchored(Staged(db, t))
    ensures forall id | id in db.work :: id in Staged(db, t).work && Staged(db, t).work[id] == db.work[id]
  {
    hide HistoryKeyed, HistoryFull, RowsAgree, PlansStored, Tiled, StageOutcomeOf, WithEvents, WithWork, WorkRowOk,
         ResolutionsOk, Anchored, StoredAt, ContiguousFrom, ValidWork, StagedInstance;
    StagedShape(db, t);
    StagedLookup(db, t);
    WithWorkAt(db.work, t.work);
    var later := Staged(db, t);
    forall id | id in later.work
      ensures later.work[id].work.id == id && WorkRowOk(later.work[id])
      ensures EventKey(later.work[id].work.instanceID, later.work[id].work.sequence) in later.history
    {
      if id !in db.work {
        assert Creates(t.work, id);
        var k :| 0 <= k < |t.work| && t.work[k].id == id;
        NewRowOk(t.work[k]);
        NewWorkAnchored(later, t, t.work[k]);
      }
    }
  }

  /** Rows only ever gain tokens; dead letters under a discarded fence do not move. */
  predicate WorkAdvanced(db: Tables, later: Tables) {
    forall id | id in db.work ::
      && id in later.work && later.work[id].token >= db.work[id].token
      && (db.work[id].state.WorkDeadLettered? ==> later.work[id] == db.work[id])
      && (later.work[id].state.WorkLeased? && later.work[id].token == db.work[id].token ==> db.work[id].state.WorkLeased?)
  }

  lemma ResolutionsUntouched(db: Tables, later: Tables)
    requires ResolutionsOk(db) && later.resolutions == db.resolutions && WorkAdvanced(db, later)
    ensures ResolutionsOk(later)
  {
  }

  lemma CommitKeeps(db: Tables, t: Transition)
    requires StoreOk(db) && ValidTransition(t) && ValidEvents(t.events) && forall k | 0 <= k < |t.work| :: ValidWork(t.work[k])
    ensures StoreOk(Commit(db, t))
  {
    hide HistoryOk, WorkOk, WorkAnchored, ResolutionsOk, WorkRowOk, StagedInstance, ContiguousFrom, TimesOrdered,
         Anchored, DistinctWork, StartsRight;
    if StageOutcomeOf(db, t).Applied? {
      CommitKeepsHistory(db, t);
      CommitKeepsWork(db, t);
      ResolutionsUntouched(db, Staged(db, t));
    }
  }

  lemma ClaimedRowOk(row: WorkRow, r: ClaimRequest)
    requires WorkRowOk(row) && ValidClaim(r) && Eligible(row, r.now) && row.attempts < MAX_INT32
    ensures WorkRowOk(ClaimedRow(row, r))
  {
  }

  lemma ClaimKeepsWork(db: Tables, r: ClaimRequest)
    requires WorkOk(db) && WorkAnchored(db) && ValidClaim(r)
    ensures WorkOk(Claim(db, r)) && WorkAnchored(Claim(db, r))
  {
    hide WorkRowOk, ValidClaim, TenantRank, Precedes, ClaimedRow, ClaimFits;
    var later := Claim(db, r);
    forall id | id in later.work ensures later.work[id].work.id == id && WorkRowOk(later.work[id]) {
      if ClaimFits(db, r) && id in Chosen(db, r) {
        ClaimedRowKeeps(db, r, id);
      }
    }
    forall id | id in later.work ensures later.work[id].work == db.work[id].work {
      SameItem(db.work[id], r);
    }
  }

  lemma ClaimedRowKeeps(db: Tables, r: ClaimRequest, id: Ident)
    requires WorkOk(db) && ValidClaim(r) && ClaimFits(db, r) && id in Chosen(db, r)
    ensures id in db.work && WorkRowOk(ClaimedRow(db.work[id], r)) && ClaimedRow(db.work[id], r).work == db.work[id].work
  {
    hide WorkRowOk, ValidClaim, TenantRank, Precedes;
    ClaimedRowOk(db.work[id], r);
  }

  lemma SameItem(row: WorkRow, r: ClaimRequest)
    ensures ClaimedRow(row, r).work == row.work
  {
  }

  lemma ClaimAdvances(db: Tables, r: ClaimRequest)
    ensures WorkAdvanced(db, Claim(db, r)) && Claim(db, r).resolutions == db.resolutions
  {
    hide TenantRank, Precedes, ClaimFits;
  }

  lemma ClaimKeeps(db: Tables, r: ClaimRequest)
    requires StoreOk(db) && ValidClaim(r)
    ensures StoreOk(Claim(db, r))
  {
    hide HistoryOk, WorkOk, WorkAnchored, ResolutionsOk, ValidClaim, Chosen, ClaimFits, WorkAdvanced;
    HistoriesUntouched(db, Claim(db, r));
    ClaimKeepsWork(db, r);
    ClaimAdvances(db, r);
    ResolutionsUntouched(db, Claim(db, r));
  }

  /** Replacing a leased row by one of the same work and token. */
  lemma LeasedRowUpdated(db: Tables, id: Ident, row: WorkRow)
    requires StoreOk(db) && id in db.work && db.work[id].state.WorkLeased? && WorkRowOk(row)
    requires row.token == db.work[id].token && row.work.id == id
    requires row.work.instanceID == db.work[id].work.instanceID && row.work.sequence == db.work[id].work.sequence
    ensures StoreOk(db.(work := db.work[id := row]))
  {
    hide HistoryOk, WorkRowOk, ResolutionsOk;
    var later := db.(work := db.work[id := row]);
    HistoriesUntouched(db, later);
    ResolutionsUntouched(db, later);
  }

  lemma WorkOkAt(db: Tables, id: Ident)
    requires WorkOk(db) && id in db.work
    ensures db.work[id].work.id == id && WorkRowOk(db.work[id])
  {
  }

  lemma RenewKeeps(db: Tables, r: Renewal)
    requires StoreOk(db) && ValidRenewal(r)
    ensures StoreOk(Renew(db, r))
  {
    hide HistoryOk, ResolutionsOk, WorkAnchored, WorkOk;
    if Renewable(db, r) {
      WorkOkAt(db, r.workID);
      LeasedRowUpdated(db, r.workID, Renew(db, r).work[r.workID]);
    }
  }

  lemma CompleteKeeps(db: Tables, c: Completed)
    requires StoreOk(db) && c.at > ZERO_TIME
    ensures StoreOk(Complete(db, c))
  {
    hide HistoryOk, ResolutionsOk, WorkAnchored, WorkOk;
    if Live(db, c.workID, c.owner, c.token, c.at) {
      WorkOkAt(db, c.workID);
      LeasedRowUpdated(db, c.workID, Complete(db, c).work[c.workID]);
    }
  }

  lemma FailKeeps(db: Tables, f: WorkFailure)
    requires StoreOk(db) && ValidFailure(f)
    ensures StoreOk(Fail(db, f))
  {
    hide HistoryOk, ResolutionsOk, WorkAnchored, WorkOk;
    if Live(db, f.workID, f.owner, f.token, f.at) {
      WorkOkAt(db, f.workID);
      LeasedRowUpdated(db, f.workID, Fail(db, f).work[f.workID]);
    }
  }

  lemma ResolveKeepsWork(db: Tables, r: Resolution)
    requires WorkOk(db) && WorkAnchored(db) && ValidResolution(r)
    ensures WorkOk(Resolve(db, r)) && WorkAnchored(Resolve(db, r))
  {
    hide FenceResolved, ValidIdent, StableName, OptionalMetadata;
  }

  lemma ResolveKeepsResolutions(db: Tables, r: Resolution)
    requires ResolutionsOk(db) && ValidResolution(r)
    ensures ResolutionsOk(Resolve(db, r))
  {
    hide ValidIdent, StableName;
  }

  lemma ResolveKeeps(db: Tables, r: Resolution)
    requires StoreOk(db) && ValidResolution(r)
    ensures StoreOk(Resolve(db, r))
  {
    hide HistoryOk, WorkOk, WorkAnchored, ResolutionsOk, ValidResolution, ResolveFailure;
    HistoriesUntouched(db, Resolve(db, r));
    ResolveKeepsWork(db, r);
    ResolveKeepsResolutions(db, r);
  }

  lemma PerformKeeps(db: Tables, op: Op)
    requires StoreOk(db) && ValidOp(op)
    ensures StoreOk(Perform(db, op))
  {
    hide StoreOk, Commit, Claim, Renew, Complete, Fail, Resolve, ValidTransition, ValidResolution;
    match op
    case DoCommit(t) => CommitKeeps(db, t);
    case DoClaim(r) => ClaimKeeps(db, r);
    case DoRenew(r) => RenewKeeps(db, r);
    case DoComplete(c) => CompleteKeeps(db, c);
    case DoFail(f) => FailKeeps(db, f);
    case DoResolve(r) => ResolveKeeps(db, r);
  }

  predicate Empty(db: Tables) {
    && (forall id :: id !in db.instances) && (forall id :: id !in db.transitions) && (forall key :: key !in db.history)
    && (forall id :: id !in db.work) && (forall c :: c !in db.resolutions)
  }

  lemma EmptyIsOk(db: Tables)
    requires Empty(db)
    ensures StoreOk(db)
  {
    hide WorkRowOk, RowAgrees, ValidEvent, CoveredUpTo, PlanStored, Full;
  }

  lemma NoTablesEmpty()
    ensures Empty(NO_TABLES)
  {
  }

  /** Every reachable state of the store satisfies the invariants. */
  lemma {:induction false} ReachableIsOk(ops: seq<Op>)
    requires ValidOps(ops)
    ensures StoreOk(PerformAll(NO_TABLES, ops))
  {
    if ops == [] {
      hide StoreOk;
      NoTablesEmpty();
      EmptyIsOk(NO_TABLES);
    } else {
      hide StoreOk, Perform, ValidOp;
      ReachableIsOk(ops[..|ops| - 1]);
      PerformKeeps(PerformAll(NO_TABLES, ops[..|ops| - 1]), ops[|ops| - 1]);
    }
  }

  // --- what no operation undoes -------------------------------------------

  /** The immutable identity of a work row. */
  predicate SameWork(a: PendingWork, b: PendingWork) {
    a == b.(availableAt := a.availableAt, deadline := a.deadline)
  }

  predicate WorkExtends(db: Tables, later: Tables) {
    forall id | id in db.work ::
      && id in later.work && SameWork(later.work[id].work, db.work[id].work)
      && later.work[id].token >= db.work[id].token
      && (db.work[id].state.WorkFinished? ==> later.work[id] == db.work[id])
  }

  predicate HistoriesExtend(db: Tables, later: Tables) {
    && Kept(db.history, later.history)
    && (forall id | id in db.instances ::
          id in later.instances && later.instances[id].sequence >= db.instances[id].sequence)
    && (forall id | id in db.transitions :: id in later.transitions && later.transitions[id] == db.transitions[id])
  }

  /** `later` keeps every durable fact of `db`. */
  predicate Extends(db: Tables, later: Tables) {
    && WorkExtends(db, later) && HistoriesExtend(db, later)
    && (forall c | c in db.resolutions :: c in later.resolutions && later.resolutions[c] == db.resolutions[c])
  }

  lemma CommitExtends(db: Tables, t: Transition)
    requires StoreOk(db) && ValidOp(DoCommit(t))
    ensures Extends(db, Commit(db, t))
  {
    hide HistoryOk, WorkOk, WorkAnchored, ResolutionsOk, WithEvents, WithWork, ValidWork, StageFailure, ContiguousFrom,
         TimesOrdered, Anchored, DistinctWork, StartsRight;
    if StageOutcomeOf(db, t).Applied? {
      CommitKeepsWork(db, t);
      CommitExtendsHistories(db, t);
    }
  }

  lemma CommitExtendsHistories(db: Tables, t: Transition)
    requires StoreOk(db) && Applicable(db, t)
    ensures t.events != [] && StageFailure(db, t).None? && HistoriesExtend(db, Staged(db, t))
  {
    hide HistoryOk, HistoryKeyed, HistoryFull, RowsAgree, PlansStored, Tiled, WorkOk, WorkAnchored, ResolutionsOk,
         WithEvents, WithWork, StageFailure, ValidTransition, StageOutcomeOf, Kept, StoredAt, ContiguousFrom, Full,
         IsTerminalEvent, NextPin;
    HistoryParts(db);
    StagedShape(db, t);
    StagedLookup(db, t);
  }

  lemma HistoryParts(db: Tables)
    requires StoreOk(db)
    ensures HistoryKeyed(db) && HistoryFull(db) && RowsAgree(db) && PlansStored(db) && Tiled(db)
  {
    hide HistoryKeyed, HistoryFull, RowsAgree, PlansStored, Tiled;
  }

  lemma ClaimExtends(db: Tables, r: ClaimRequest)
    ensures Extends(db, Claim(db, r))
  {
    hide ClaimFits, TenantRank, Precedes;
  }

  lemma ResolveExtends(db: Tables, r: Resolution)
    ensures Extends(db, Resolve(db, r))
  {
    hide FenceResolved;
  }

  lemma RenewExtends(db: Tables, r: Renewal)
    ensures Extends(db, Renew(db, r))
  {
  }

  lemma CompleteExtends(db: Tables, c: Completed)
    ensures Extends(db, Complete(db, c))
  {
  }

  lemma FailExtends(db: Tables, f: WorkFailure)
    ensures Extends(db, Fail(db, f))
  {
  }

  lemma PerformExtends(db: Tables, op: Op)
    requires StoreOk(db) && ValidOp(op)
    ensures Extends(db, Perform(db, op))
  {
    hide StoreOk, ValidTransition, ValidResolution, Commit, Claim, Renew, Complete, Fail, Resolve, Extends;
    match op
    case DoCommit(t) => CommitExtends(db, t);
    case DoClaim(r) => ClaimExtends(db, r);
    case DoRenew(r) => RenewExtends(db, r);
    case DoComplete(c) => CompleteExtends(db, c);
    case DoFail(f) => FailExtends(db, f);
    case DoResolve(r) => ResolveExtends(db, r);
  }

  lemma ExtendsItself(db: Tables)
    ensures Extends(db, db)
  {
  }

  lemma ExtendsTransitive(a: Tables, b: Tables, c: Tables)
    requires Extends(a, b) && Extends(b, c)
    ensures Extends(a, c)
  {
  }

  lemma CommitKeepsAndExtends(db: Tables, t: Transition)
    requires StoreOk(db) && ValidOp(DoCommit(t))
    ensures t.events != [] && StoreOk(Commit(db, t)) && Extends(db, Commit(db, t))
  {
    hide StoreOk, Extends, ContiguousFrom, TimesOrdered, Anchored, DistinctWork, StartsRight, StageOutcomeOf, Staged;
    PerformKeeps(db, DoCommit(t));
    PerformExtends(db, DoCommit(t));
  }

  /** A run from an invariant state ends in one, and undoes nothing durable. */
  lemma {:induction false} RunExtends(db: Tables, ops: seq<Op>)
    requires StoreOk(db) && ValidOps(ops)
    ensures StoreOk(PerformAll(db, ops)) && Extends(db, PerformAll(db, ops))
  {
    if ops == [] {
    } else {
      hide StoreOk, Perform, ValidOp, Extends;
      var before := PerformAll(db, ops[..|ops| - 1]);
      RunExtends(db, ops[..|ops| - 1]);
      PerformKeeps(before, ops[|ops| - 1]);
      PerformExtends(before, ops[|ops| - 1]);
      ExtendsTransitive(db, before, PerformAll(db, ops));
    }
  }
}
