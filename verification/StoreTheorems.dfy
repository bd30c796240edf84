/** Guarantees of the store that its callers rely on. */
module StoreTheorems {
  import opened Basics
  import opened Definitions
  import opened Events
  import opened Replay
  import opened Transitions
  import opened Store
  import opened StoreInvariants
  import opened StoreRuns
  import F = ReplayFrames

  // --- rows and replay ----------------------------------------------------

  lemma {:induction false} StoredHistoryValid(db: Tables, id: Ident)
    requires StoreOk(db) && id in db.instances
    ensures ValidEvents(HistoryOf(db, id)) && |HistoryOf(db, id)| == db.instances[id].sequence
    ensures forall k | 0 <= k < |HistoryOf(db, id)| ::
              EventKey(id, k + 1) in db.history && HistoryOf(db, id)[k] == db.history[EventKey(id, k + 1)]
  {
    hide ValidEvent, RowsAgree, PlansStored, Tiled, WorkOk, WorkAnchored, ResolutionsOk;
    assert Full(db.history, id, db.instances[id].sequence);
    FullPrefix(db.history, id, db.instances[id].sequence);
  }

  /**
   * The instance row never disagrees with history: whenever the stored history
   * replays, pin, position and times are the replayed ones, and the row is
   * archived exactly when the replayed status is terminal.
   */
  lemma RowAgreesWithReplay(db: Tables, registry: Registry, id: Ident)
    requires StoreOk(db) && id in db.instances && ReplayHistory(registry, HistoryOf(db, id)).Ok?
    ensures var row, i := db.instances[id], ReplayHistory(registry, HistoryOf(db, id)).value;
            && row.definition == i.definition && row.sequence == i.sequence
            && row.createdAt == i.startedAt && row.updatedAt == i.updatedAt
            && (row.archivedAt.Some? <==> Terminal(i.status))
  {
    hide ApplyAll, HistoryKeyed, HistoryFull, PlansStored, Tiled, WorkOk, WorkAnchored, ResolutionsOk, IsTerminalEvent,
         Terminal;
    var h := HistoryOf(db, id);
    StoredHistoryValid(db, id);
    assert RowAgrees(db.instances[id], h);
    F.AcceptedShape(registry, h);
    F.AcceptedDefinition(registry, h);
    F.TerminalIsLast(registry, h);
  }

  /** Each stored position belongs to exactly one durable transition, which holds that very event. */
  lemma PositionsTiled(db: Tables, id: Ident, s: nat) returns (tid: Ident)
    requires StoreOk(db) && id in db.instances && 1 <= s <= db.instances[id].sequence
    ensures tid in db.transitions && Covers(db.transitions[tid], id, s)
    ensures forall other | other in db.transitions && Covers(db.transitions[other], id, s) :: other == tid
    ensures EventKey(id, s) in db.history
    ensures var plan := db.transitions[tid].plan;
            s - plan.expectedSequence - 1 < |plan.events| &&
            db.history[EventKey(id, s)] == plan.events[s - plan.expectedSequence - 1]
  {
    hide HistoryKeyed, HistoryFull, RowsAgree, WorkOk, WorkAnchored, ResolutionsOk;
    assert CoveredUpTo(db.transitions, id, db.instances[id].sequence);
    assert Covered(db.transitions, id, s);
    tid :| tid in db.transitions && Covers(db.transitions[tid], id, s);
    assert PlanStored(db, db.transitions[tid]);
    forall other | other in db.transitions && Covers(db.transitions[other], id, s) ensures other == tid {
      assert other != tid ==> Apart(db.transitions[other], db.transitions[tid]);
    }
  }

  /** A durable transition's events are the slice of history at its own positions. */
  lemma DurableEvents(db: Tables, tid: Ident)
    requires StoreOk(db) && tid in db.transitions
    ensures var t := db.transitions[tid].plan;
            && t.id == tid && t.instanceID in db.instances
            && t.expectedSequence + |t.events| <= |HistoryOf(db, t.instanceID)|
            && HistoryOf(db, t.instanceID)[t.expectedSequence..t.expectedSequence + |t.events|] == t.events
  {
    hide HistoryKeyed, HistoryFull, RowsAgree, Tiled, WorkOk, WorkAnchored, ResolutionsOk;
    var t := db.transitions[tid].plan;
    assert PlanStored(db, db.transitions[tid]);
    StoredHistoryValid(db, t.instanceID);
    var h := HistoryOf(db, t.instanceID);
    forall k | 0 <= k < |t.events| ensures h[t.expectedSequence + k] == t.events[k] {
      assert EventKey(t.instanceID, t.expectedSequence + k + 1) in db.history;
    }
  }

  /** Committing the same plan again, at any later time, changes nothing and is reported as replay. */
  lemma CommitIsIdempotent(db: Tables, t: Transition, ops: seq<Op>)
    requires StoreOk(db) && ValidOp(DoCommit(t)) && ValidOps(ops) && StageOutcomeOf(db, t).Applied?
    ensures var later := PerformAll(Commit(db, t), ops);
            && Commit(later, t) == later && Reconcile(later, t).TransitionCommitted?
            && StageOutcomeOf(later, t).ExactReplay?
  {
    hide StoreOk, StageFailure, StagedInstance, WithEvents, WithWork, PerformAll, WorkExtends, ContiguousFrom,
         TimesOrdered, Anchored, DistinctWork, StartsRight;
    CommitKeeps(db, t);
    RunExtends(Commit(db, t), ops);
    assert t.id in Commit(db, t).transitions && Commit(db, t).transitions[t.id].plan == t;
  }

  /** A plan whose identity another plan has used conflicts with it, and is refused, at any later time. */
  lemma ConflictForever(db: Tables, t: Transition, other: Transition, ops: seq<Op>)
    requires StoreOk(db) && ValidOp(DoCommit(t)) && ValidOp(DoCommit(other)) && ValidOps(ops)
    requires StageOutcomeOf(db, other).Applied? && t.id == other.id && t != other
    ensures var later := PerformAll(Commit(db, other), ops);
            && Commit(later, t) == later && Reconcile(later, t).TransitionConflicting?
            && StageOutcomeOf(later, t).Refused?
  {
    hide StoreOk, StageFailure, StagedInstance, WithEvents, WithWork, PerformAll, WorkExtends, ContiguousFrom,
         TimesOrdered, Anchored, DistinctWork, StartsRight;
    CommitKeeps(db, other);
    RunExtends(Commit(db, other), ops);
    assert t.id in Commit(db, other).transitions && Commit(db, other).transitions[t.id].plan == other;
  }

  // --- fences -------------------------------------------------------------

  /** A claim adds exactly one to the attempts and to the token of the rows it takes, and nothing to others. */
  lemma ClaimCounts(db: Tables, r: ClaimRequest, id: Ident)
    requires StoreOk(db) && id in db.work
    ensures Claim(db, r).work[id].token ==
            db.work[id].token + if ClaimFits(db, r) && id in Chosen(db, r) then 1 else 0
    ensures Claim(db, r).work[id].attempts == Claim(db, r).work[id].token
  {
    hide HistoryOk, WorkAnchored, ResolutionsOk, TenantRank, Precedes, ClaimFits;
    WorkOkAt(db, id);
  }

  /** Once a newer claim exists, an older token is never live again: renew, complete and fail are refused forever. */
  lemma StaleForever(db: Tables, ops: seq<Op>, id: Ident, owner: Ident, token: Uint64, now: Time)
    requires StoreOk(db) && ValidOps(ops) && id in db.work && db.work[id].token > token
    ensures var later := PerformAll(db, ops);
            && !Live(later, id, owner, token, now)
            && (forall r: Renewal | r.workID == id && r.token == token :: Renew(later, r) == later)
            && (forall c: Completed | c.workID == id && c.token == token :: Complete(later, c) == later)
            && (forall f: WorkFailure | f.workID == id && f.token == token :: Fail(later, f) == later)
  {
    hide StoreOk, HistoriesExtend, PerformAll;
    RunExtends(db, ops);
  }

  /** Completion is absorbing: a finished row never changes in any way. */
  lemma FinishedForever(db: Tables, ops: seq<Op>, id: Ident)
    requires StoreOk(db) && ValidOps(ops) && id in db.work && db.work[id].state.WorkFinished?
    ensures id in PerformAll(db, ops).work && PerformAll(db, ops).work[id] == db.work[id]
  {
    hide StoreOk, HistoriesExtend, PerformAll;
    RunExtends(db, ops);
  }

  /** Every row a claim takes is returned as a valid lease of this owner from now on. */
  lemma ClaimedLeasesValid(db: Tables, r: ClaimRequest, id: Ident)
    requires StoreOk(db) && ValidClaim(r) && ClaimFits(db, r) && id in Chosen(db, r)
    ensures var row := Claim(db, r).work[id];
            var lease := LeaseOf(row, r.now);
            && lease.Some? && ValidLease(lease.value) && lease.value.owner == r.owner && lease.value.claimedAt == r.now
            && lease.value.work == db.work[id].work && lease.value.token == lease.value.attempt == db.work[id].token + 1
            && lease.value.expiresAt == Min(r.now + r.duration, db.work[id].work.deadline)
            && Live(Claim(db, r), id, r.owner, lease.value.token, r.now)
  {
    hide HistoryOk, WorkAnchored, ResolutionsOk, TenantRank, Precedes, OptionalMetadata, ValidIdent;
    WorkOkAt(db, id);
  }

  /** A renewal answers with a valid lease under the same token. */
  lemma RenewedLeaseValid(db: Tables, r: Renewal)
    requires StoreOk(db) && ValidRenewal(r) && Renewable(db, r)
    ensures var lease := LeaseOf(Renew(db, r).work[r.workID], r.now);
            && lease.Some? && ValidLease(lease.value) && lease.value.owner == r.owner && lease.value.token == r.token
            && lease.value.work == db.work[r.workID].work && lease.value.work.id == r.workID
            && lease.value.attempt == r.token && lease.value.claimedAt == r.now
            && lease.value.expiresAt == Min(r.now + r.extendBy, db.work[r.workID].work.deadline)
            && Live(Renew(db, r), r.workID, r.owner, r.token, r.now)
  {
    hide HistoryOk, WorkAnchored, ResolutionsOk, OptionalMetadata, ValidIdent;
    WorkOkAt(db, r.workID);
  }

  // --- dead letters -------------------------------------------------------

  /** Each fence has at most one resolution, in every reachable state. */
  lemma FenceResolvedOnce(db: Tables, a: Ident, b: Ident)
    requires StoreOk(db) && a in db.resolutions && b in db.resolutions
    requires db.resolutions[a].workID == db.resolutions[b].workID && db.resolutions[a].token == db.resolutions[b].token
    ensures a == b
  {
    hide HistoryOk, WorkOk, WorkAnchored;
  }

  /** A repeated command changes nothing, however much later. */
  lemma ResolutionIsIdempotent(db: Tables, r: Resolution, ops: seq<Op>)
    requires StoreOk(db) && ValidResolution(r) && ValidOps(ops) && ResolveFailure(db, r).None?
    ensures var later := PerformAll(Resolve(db, r), ops);
            r.commandID in later.resolutions && later.resolutions[r.commandID] == r &&
            ResolveFailure(later, r).None? && Resolve(later, r) == later
  {
    hide HistoryOk, WorkOk, WorkAnchored, PerformAll, WorkExtends, HistoriesExtend, ValidResolution, FenceResolved,
         ResolutionsOk;
    ResolveKeeps(db, r);
    RunExtends(Resolve(db, r), ops);
    assert r.commandID in Resolve(db, r).resolutions && Resolve(db, r).resolutions[r.commandID] == r;
  }

  /** Once a fence is resolved, every other command on it is refused without effect, forever. */
  lemma FenceClosed(db: Tables, command: Ident, ops: seq<Op>, other: Resolution)
    requires StoreOk(db) && ValidOps(ops) && command in db.resolutions && other != db.resolutions[command]
    requires other.workID == db.resolutions[command].workID && other.token == db.resolutions[command].token
    ensures var later := PerformAll(db, ops); ResolveFailure(later, other).Some? && Resolve(later, other) == later
  {
    hide HistoryOk, WorkOk, WorkAnchored, PerformAll, WorkExtends, HistoriesExtend;
    RunExtends(db, ops);
    var later := PerformAll(db, ops);
    assert later.resolutions[command] == db.resolutions[command];
    if other.commandID in later.resolutions && later.resolutions[other.commandID] == other {
      FenceResolvedOnce(later, other.commandID, command);
    } else {
      assert FenceResolved(later, other.workID, other.token);
    }
  }

  /** A discarded item stays dead-lettered under its fence and never reappears in the list or in a claim. */
  lemma DiscardedForever(db: Tables, command: Ident, ops: seq<Op>, now: Time)
    requires StoreOk(db) && ValidOps(ops) && command in db.resolutions
    requires db.resolutions[command].action.DeadLetterDiscard?
    ensures var later, id := PerformAll(db, ops), db.resolutions[command].workID;
            && id in later.work && later.work[id].state.WorkDeadLettered?
            && later.work[id].token == db.resolutions[command].token
            && id !in Listed(later) && id !in Candidates(later, now)
  {
    hide HistoryOk, WorkOk, WorkAnchored, PerformAll, WorkExtends, HistoriesExtend;
    RunExtends(db, ops);
    var later := PerformAll(db, ops);
    assert later.resolutions[command] == db.resolutions[command];
    assert FenceResolved(later, db.resolutions[command].workID, db.resolutions[command].token);
  }

  /** The list shows exactly the dead-lettered items whose current fence has no resolution. */
  lemma ListIsExact(db: Tables, id: Ident)
    requires StoreOk(db)
    ensures id in Listed(db) <==>
            id in db.work && db.work[id].state.WorkDeadLettered? &&
            forall c | c in db.resolutions ::
              db.resolutions[c].workID != id || db.resolutions[c].token != db.work[id].token
  {
    hide HistoryOk, WorkAnchored, ResolutionsOk;
    if id in db.work {
      WorkOkAt(db, id);
    }
  }
}
