/** Every move of the processor system keeps its invariants, so the at-most-once theorem holds of every run. */
module InvocationRuns {
  import opened Basics
  import opened Definitions
  import opened Events
  import opened Replay
  import opened Transitions
  import opened Planners
  import opened Acceptance
  import opened PlannerSoundness
  import opened Store
  import opened StoreInvariants
  import opened StoreRuns
  import opened Invocations
  import StoreTheorems
  import Inspection
  import M = MultiWriter
  import T = ReplayTheorems

  // --- growing tables -----------------------------------------------------

  lemma ViewKept(registry: Registry, db: Tables, later: Tables, id: Ident, view: Instance)
    requires StoreOk(db) && Extends(db, later) && ViewOk(registry, db, id, view)
    ensures ViewOk(registry, later, id, view)
  {
    hide StoreOk, WorkExtends, Settled, ReplayHistory, HistoryOf;
    if view.sequence == later.instances[id].sequence {
      M.SameLengthSameHistory(db, later, id);
    }
  }

  lemma PhaseKept(registry: Registry, db: Tables, later: Tables, run: Run)
    requires StoreOk(db) && Extends(db, later) && PhaseOk(registry, db, run)
    ensures PhaseOk(registry, later, run)
  {
    hide StoreOk, WorkExtends, ViewOk, StartPlanOk, ApplyAll;
    match run.phase
    case Leased =>
    case Viewing(view) => ViewKept(registry, db, later, run.lease.work.instanceID, view);
    case Starting(view, plan) => ViewKept(registry, db, later, run.lease.work.instanceID, view);
    case Started(plan) =>
    case Called(plan) =>
    case Stopped =>
  }

  lemma StartKept(registry: Registry, db: Tables, later: Tables, tid: Ident)
    requires StoreOk(db) && StoreOk(later) && Extends(db, later) && tid in db.transitions
    requires StartReplays(registry, db, db.transitions[tid].plan)
    ensures tid in later.transitions && StartReplays(registry, later, later.transitions[tid].plan)
  {
    hide StoreOk, WorkExtends, HistoryOf, ApplyAll;
    var t := db.transitions[tid].plan;
    StoreTheorems.DurableEvents(db, tid);
    Inspection.HistoryGrows(db, later, t.instanceID);
    var end := t.expectedSequence + |t.events|;
    assert HistoryOf(db, t.instanceID)[..end] == HistoryOf(later, t.instanceID)[..end];
  }

  /** Leases of rows that stay leased are never cut short, and nothing returns to due. */
  predicate RowsHold(db: Tables, later: Tables) {
    && (forall id | id in db.work :: id in later.work && RowHolds(db.work[id], later.work[id]))
    && (forall id | id in later.work && id !in db.work :: later.work[id].token == 0 && later.work[id].state.WorkDue?)
  }

  predicate RowHolds(row: WorkRow, later: WorkRow) {
    && (later.state.WorkLeased? ==> row.state.WorkLeased? && later.expiresAt >= row.expiresAt)
    && (later.state.WorkDue? ==> row.state.WorkDue? && later.token == row.token)
  }

  lemma LeasesKept(s: System, later: Tables)
    requires LeasesOk(s) && WorkExtends(s.db, later) && RowsHold(s.db, later)
    ensures LeasesOk(s.(db := later))
  {
    forall key | key in s.runs ensures LeaseOk(later, key, s.runs[key]) {
      assert LeaseOk(s.db, key, s.runs[key]);
      assert RowHolds(s.db.work[key.workID], later.work[key.workID]);
    }
  }

  lemma FreshKept(db: Tables, later: Tables)
    requires DueIsFresh(db) && RowsHold(db, later)
    ensures DueIsFresh(later)
  {
    forall id | id in later.work && later.work[id].state.WorkDue? ensures later.work[id].token == 0 {
      if id in db.work {
        assert RowHolds(db.work[id], later.work[id]);
      }
    }
  }

  /** Any change of the tables that extends them and holds the rows, once its own starts replay. */
  lemma TablesMoved(registry: Registry, s: System, later: Tables)
    requires SystemOk(registry, s) && StoreOk(later) && Extends(s.db, later) && RowsHold(s.db, later)
    requires forall tid | tid in later.transitions && IsStartID(tid) && tid !in s.db.transitions ::
               StartReplays(registry, later, later.transitions[tid].plan)
    ensures SystemOk(registry, s.(db := later))
  {
    hide StoreOk, HistoriesExtend, WorkExtends, RowsHold, LeaseOk, PhaseOk, StartReplays, CallOk, DueIsFresh;
    var t := s.(db := later);
    LeasesKept(s, later);
    FreshKept(s.db, later);
    forall key | key in s.runs ensures PhaseOk(registry, later, s.runs[key]) {
      PhaseKept(registry, s.db, later, s.runs[key]);
    }
    forall tid | tid in later.transitions && IsStartID(tid) ensures StartReplays(registry, later, later.transitions[tid].plan) {
      if tid in s.db.transitions {
        StartKept(registry, s.db, later, tid);
      }
    }
    forall k | 0 <= k < |t.calls| ensures CallOk(t, t.calls[k]) {
      CallFollowsRuns(s, t, t.calls[k]);
    }
  }

  lemma CallFollowsRuns(s: System, t: System, c: Call)
    requires CallOk(s, c) && t.runs == s.runs
    ensures CallOk(t, c)
  {
  }

  // --- other parties ------------------------------------------------------

  lemma CommitHoldsRows(db: Tables, t: Transition)
    requires StoreOk(db) && ValidOp(DoCommit(t))
    ensures t.events != [] && RowsHold(db, Commit(db, t))
  {
    hide HistoryOk, WorkOk, WorkAnchored, ResolutionsOk, ValidEvent, ValidWork, ContiguousFrom, TimesOrdered, Anchored,
         StartsRight, StageFailure;
    if StageOutcomeOf(db, t).Applied? {
      CommitKeepsWork(db, t);
      WithWorkAt(db.work, t.work);
    }
  }

  lemma OtherHoldsRows(db: Tables, op: Op)
    requires StoreOk(db) && Harmless(db, op)
    ensures RowsHold(db, Perform(db, op))
  {
    hide StoreOk, Commit, ValidTransition, ValidResolution, FenceResolved;
    match op
    case DoCommit(t) => CommitHoldsRows(db, t);
    case DoRenew(r) =>
    case DoComplete(c) =>
    case DoFail(f) =>
    case DoResolve(r) =>
  }

  lemma NoNewStarts(db: Tables, op: Op, tid: Ident)
    requires ValidOp(op) && (op.DoCommit? ==> !IsStartID(op.t.id)) && tid in Perform(db, op).transitions && IsStartID(tid)
    ensures tid in db.transitions
  {
    hide ValidTransition, ValidResolution, StageFailure, StageOutcomeOf, ClaimFits, FenceResolved;
  }

  lemma OthersKeep(registry: Registry, s: System, op: Op)
    requires SystemOk(registry, s) && Harmless(s.db, op)
    ensures SystemOk(registry, s.(db := Perform(s.db, op)))
  {
    hide SystemOk, StoreOk, Extends, RowsHold, Perform, StartReplays, ValidOp;
    StoreIsOk(registry, s);
    PerformKeeps(s.db, op);
    PerformExtends(s.db, op);
    OtherHoldsRows(s.db, op);
    forall tid | tid in Perform(s.db, op).transitions && IsStartID(tid) ensures tid in s.db.transitions {
      NoNewStarts(s.db, op, tid);
    }
    TablesMoved(registry, s, Perform(s.db, op));
  }

  lemma StoreIsOk(registry: Registry, s: System)
    requires SystemOk(registry, s)
    ensures StoreOk(s.db)
  {
  }

  // --- claims -------------------------------------------------------------

  /** Everything leased before is over by the time a row can be claimed again. */
  lemma ClaimedAfterEarlierLeases(s: System, r: ClaimRequest, key: ClaimKey)
    requires LeasesOk(s) && DueIsFresh(s.db) && key in s.runs && key.workID in Chosen(s.db, r)
    ensures s.runs[key].lease.expiresAt <= r.now
  {
    hide Precedes, SameWork;
    assert LeaseOk(s.db, key, s.runs[key]);
  }

  lemma NewRunShape(db: Tables, r: ClaimRequest, key: ClaimKey)
    requires StoreOk(db) && ValidClaim(r) && ClaimFits(db, r) && key in NewRuns(db, r)
    ensures key.workID in Chosen(db, r) && key.workID in db.work && key.token == db.work[key.workID].token + 1
    ensures NewRuns(db, r)[key].lease.claimedAt == r.now && NewRuns(db, r)[key].phase.Leased?
    ensures LeaseOk(Claim(db, r), key, NewRuns(db, r)[key])
  {
    hide StoreOk, Precedes, ValidLease;
    StoreTheorems.ClaimedLeasesValid(db, r, key.workID);
    StoreIdentity(db, key.workID);
    LeaseIsLonger(LeaseOf(ClaimedRow(db.work[key.workID], r), r.now).value);
  }

  lemma LeaseIsLonger(l: WorkLease)
    requires ValidLease(l)
    ensures l.claimedAt < l.expiresAt
  {
  }

  lemma StoreIdentity(db: Tables, id: Ident)
    requires StoreOk(db) && id in db.work
    ensures db.work[id].work.id == id
  {
    hide HistoryOk, WorkAnchored, ResolutionsOk, WorkRowOk;
  }

  lemma OldLeaseKept(s: System, r: ClaimRequest, key: ClaimKey)
    requires LeasesOk(s) && DueIsFresh(s.db) && key in s.runs && ValidClaim(r) && ClaimFits(s.db, r)
    ensures LeaseOk(Claim(s.db, r), key, s.runs[key])
  {
    hide Chosen, SameWork;
    assert LeaseOk(s.db, key, s.runs[key]);
    if key.workID in Chosen(s.db, r) {
      ClaimedAfterEarlierLeases(s, r, key);
      ChosenEligible(s.db, r, key.workID);
    }
  }

  lemma ChosenEligible(db: Tables, r: ClaimRequest, id: Ident)
    requires id in Chosen(db, r)
    ensures id in db.work && Eligible(db.work[id], r.now)
  {
    hide Precedes;
  }

  lemma ClaimKeepsLeases(registry: Registry, s: System, r: ClaimRequest)
    requires SystemOk(registry, s) && ValidClaim(r) && ClaimFits(s.db, r)
    ensures LeasesOk(Advance(registry, s, ClaimWork(r))) && WindowsDisjoint(Advance(registry, s, ClaimWork(r)))
    ensures DueIsFresh(Claim(s.db, r))
  {
    hide StoreOk, PhasesOk, StartsReplay, CallsOk, Chosen, NewRuns, LeaseOk;
    var t := Advance(registry, s, ClaimWork(r));
    forall key | key in t.runs ensures LeaseOk(t.db, key, t.runs[key]) {
      if key in NewRuns(s.db, r) {
        NewRunShape(s.db, r, key);
      } else {
        OldLeaseKept(s, r, key);
      }
    }
    forall a, b | a in t.runs && b in t.runs && a.workID == b.workID && a.token < b.token
      ensures t.runs[a].lease.expiresAt <= t.runs[b].lease.claimedAt
    {
      NewIsLatest(s, r, a, b);
    }
  }

  /** Of two windows of one item, only the later can be new, and then it starts after the earlier ended. */
  lemma NewIsLatest(s: System, r: ClaimRequest, a: ClaimKey, b: ClaimKey)
    requires StoreOk(s.db) && LeasesOk(s) && WindowsDisjoint(s) && DueIsFresh(s.db) && ValidClaim(r) && ClaimFits(s.db, r)
    requires var runs := s.runs + NewRuns(s.db, r); a in runs && b in runs
    requires a.workID == b.workID && a.token < b.token
    ensures var runs := s.runs + NewRuns(s.db, r); runs[a].lease.expiresAt <= runs[b].lease.claimedAt
  {
    hide StoreOk, Chosen, NewRuns, WindowsDisjoint, SameWork;
    var runs := s.runs + NewRuns(s.db, r);
    if a in NewRuns(s.db, r) {
      NewRunShape(s.db, r, a);
    }
    if b in NewRuns(s.db, r) {
      NewRunShape(s.db, r, b);
      assert a in s.runs;
      assert a !in NewRuns(s.db, r);
      ClaimedAfterEarlierLeases(s, r, a);
    } else {
      assert LeaseOk(s.db, b, s.runs[b]);
      assert a !in NewRuns(s.db, r);
      EarlierWindows(s, a, b);
    }
  }

  lemma EarlierWindows(s: System, a: ClaimKey, b: ClaimKey)
    requires WindowsDisjoint(s) && a in s.runs && b in s.runs && a.workID == b.workID && a.token < b.token
    ensures s.runs[a].lease.expiresAt <= s.runs[b].lease.claimedAt
  {
  }

  lemma OldRunNotNew(s: System, r: ClaimRequest, key: ClaimKey)
    requires StoreOk(s.db) && LeasesOk(s) && ValidClaim(r) && ClaimFits(s.db, r) && key in s.runs
    ensures key !in NewRuns(s.db, r)
  {
    hide StoreOk, Chosen, NewRuns, SameWork;
    assert LeaseOk(s.db, key, s.runs[key]);
    if key in NewRuns(s.db, r) {
      NewRunShape(s.db, r, key);
    }
  }

  lemma ClaimKeepsSystem(registry: Registry, s: System, r: ClaimRequest)
    requires SystemOk(registry, s)
    ensures SystemOk(registry, Advance(registry, s, ClaimWork(r)))
  {
    hide StoreOk, LeaseOk, NewRuns, Chosen, PhaseOk, StartReplays, Extends, WindowsDisjoint, ClaimFits;
    if ValidClaim(r) && ClaimFits(s.db, r) {
      var t := Advance(registry, s, ClaimWork(r));
      ClaimKeepsLeases(registry, s, r);
      ClaimKeeps(s.db, r);
      ClaimExtends(s.db, r);
      forall key | key in t.runs ensures PhaseOk(registry, t.db, t.runs[key]) {
        if key in NewRuns(s.db, r) {
          NewRunShape(s.db, r, key);
          FreshPhase(registry, t.db, t.runs[key]);
        } else {
          PhaseKept(registry, s.db, t.db, s.runs[key]);
        }
      }
      forall tid | tid in t.db.transitions && IsStartID(tid) ensures StartReplays(registry, t.db, t.db.transitions[tid].plan) {
        StartKept(registry, s.db, t.db, tid);
      }
      forall k | 0 <= k < |t.calls| ensures CallOk(t, t.calls[k]) {
        assert CallOk(s, s.calls[k]);
        OldRunNotNew(s, r, s.calls[k].caller);
      }
    }
  }

  lemma FreshPhase(registry: Registry, db: Tables, run: Run)
    requires run.phase.Leased?
    ensures PhaseOk(registry, db, run)
  {
  }

  // --- one run's own moves ------------------------------------------------

  /** Changing one run's phase, while its past calls stand. */
  lemma PhaseMoved(registry: Registry, s: System, key: ClaimKey, phase: Phase)
    requires SystemOk(registry, s) && key in s.runs && !s.runs[key].phase.Called?
    requires PhaseOk(registry, s.db, s.runs[key].(phase := phase))
    ensures SystemOk(registry, s.(runs := s.runs[key := s.runs[key].(phase := phase)]))
    ensures forall k | 0 <= k < |s.calls| :: s.calls[k].caller != key
  {
    hide StoreOk, PhaseOk, StartsReplay, SameWork;
    var t := s.(runs := s.runs[key := s.runs[key].(phase := phase)]);
    forall other | other in t.runs ensures LeaseOk(t.db, other, t.runs[other]) {
      assert LeaseOk(s.db, other, s.runs[other]);
    }
    forall k | 0 <= k < |t.calls| ensures CallOk(t, t.calls[k]) && t.calls[k].caller != key {
      assert CallOk(s, s.calls[k]);
    }
  }

  lemma SamePlanOk(run: Run, phase: Phase, plan: Transition)
    requires StartPlanOk(run, plan)
    ensures StartPlanOk(run.(phase := phase), plan)
  {
    hide ValidTransition, ValidEvents, T.IsStartOf;
  }

  lemma ViewMove(registry: Registry, s: System, key: ClaimKey)
    requires SystemOk(registry, s)
    ensures SystemOk(registry, Advance(registry, s, View(key)))
  {
    hide SystemOk, HistoryOf, StoreOk, Settled, ApplyAll;
    if key in s.runs && s.runs[key].phase.Leased? {
      var id := s.runs[key].lease.work.instanceID;
      var replayed := ReplayHistory(registry, HistoryOf(s.db, id));
      if replayed.Ok? {
        StoreIsOk(registry, s);
        NonEmptyHistory(registry, s.db, id);
        M.ViewFacts(registry, s.db, id, replayed.value);
        PhaseMoved(registry, s, key, Viewing(replayed.value));
      } else {
        PhaseMoved(registry, s, key, Stopped);
      }
    }
  }

  lemma NonEmptyHistory(registry: Registry, db: Tables, id: Ident)
    requires ReplayHistory(registry, HistoryOf(db, id)).Ok?
    ensures id in db.instances
  {
  }

  /** A planned start has the shape the invariants need, whichever processor plans it. */
  lemma PlannedStart(registry: Registry, db: Tables, run: Run, view: Instance, now: Time)
    requires ViewOk(registry, db, run.lease.work.instanceID, view) && PlanStart(registry, run, view, now).Some?
    ensures StartPlanOk(run, PlanStart(registry, run, view, now).value)
    ensures Addresses(PlanStart(registry, run, view, now).value, view)
    ensures ApplyAll(registry, view, PlanStart(registry, run, view, now).value.events).Ok?
  {
    hide ApplyAll, Settled, M.IsView, ValidTransition, ValidEvent, ValidLease;
    var d := registry.definitions[DefinitionKey(view.definition.name, view.definition.version)];
    var spec := StartSpec(StartID(run.kind, run.lease.work.id), run.lease, view, d, now);
    match run.kind
    case ActivityProcessor => ActivityStartSound(registry, spec);
    case CompensationProcessor => CompensationStartSound(registry, spec);
    case ChildProcessor => ChildStartSound(registry, spec);
  }

  lemma PlanMove(registry: Registry, s: System, key: ClaimKey, now: Time)
    requires SystemOk(registry, s)
    ensures SystemOk(registry, Advance(registry, s, Plan(key, now)))
  {
    hide SystemOk, StoreOk, ApplyAll, PlanStart, ViewOk, StartPlanOk;
    if key in s.runs && s.runs[key].phase.Viewing? {
      var run, view := s.runs[key], s.runs[key].phase.view;
      PhaseIsOk(registry, s, key);
      var planned := PlanStart(registry, run, view, now);
      if planned.Some? {
        PlannedStart(registry, s.db, run, view, now);
        SamePlanOk(run, Starting(view, planned.value), planned.value);
        PhaseMoved(registry, s, key, Starting(view, planned.value));
      } else {
        PhaseMoved(registry, s, key, Stopped);
      }
    }
  }

  lemma PhaseIsOk(registry: Registry, s: System, key: ClaimKey)
    requires SystemOk(registry, s) && key in s.runs
    ensures PhaseOk(registry, s.db, s.runs[key]) && StoreOk(s.db)
  {
    hide PhaseOk;
  }

  /** A start that is applied was planned on the current instance, so the history it completes replays. */
  lemma AppliedStartReplays(registry: Registry, db: Tables, run: Run, view: Instance, plan: Transition)
    requires StoreOk(db) && ViewOk(registry, db, run.lease.work.instanceID, view) && StartPlanOk(run, plan)
    requires Addresses(plan, view) && ApplyAll(registry, view, plan.events).Ok? && StageOutcomeOf(db, plan).Applied?
    ensures StartReplays(registry, Commit(db, plan), plan)
  {
    hide StoreOk, ApplyAll, HistoryOf, StageFailure, T.IsStartOf, ValidEvent, ValidTransition, StagedInstance;
    HistoryParts(db);
    hide HistoryKeyed, HistoryFull, RowsAgree, PlansStored, Tiled;
    M.SettledPosition(registry, view);
    StagedShape(db, plan);
    StagedHistory(db, plan);
    var h := HistoryOf(db, plan.instanceID);
    StoreTheorems.StoredHistoryValid(db, plan.instanceID);
    ApplyAllConcat(registry, BLANK, h, plan.events);
    assert (h + plan.events)[..|h| + 1] == h + plan.events;
  }

  lemma SendMove(registry: Registry, s: System, key: ClaimKey)
    requires SystemOk(registry, s)
    ensures SystemOk(registry, Advance(registry, s, Send(key)))
  {
    hide SystemOk, StoreOk, ApplyAll, ViewOk, StartReplays, Extends, RowsHold, StageOutcomeOf, Staged;
    if key in s.runs && s.runs[key].phase.Starting? {
      var run, view, plan := s.runs[key], s.runs[key].phase.view, s.runs[key].phase.plan;
      PhaseIsOk(registry, s, key);
      StartPlanValid(run, plan);
      if StageOutcomeOf(s.db, plan).Applied? {
        PerformKeeps(s.db, DoCommit(plan));
        PerformExtends(s.db, DoCommit(plan));
        CommitHoldsRows(s.db, plan);
        AppliedStartReplays(registry, s.db, run, view, plan);
        OnlyPlanAdded(s.db, plan);
        TablesMoved(registry, s, Commit(s.db, plan));
      }
    }
  }

  lemma StartPlanValid(run: Run, plan: Transition)
    requires StartPlanOk(run, plan)
    ensures ValidOp(DoCommit(plan)) && plan.events != []
  {
    hide ValidTransition, ValidEvents, T.IsStartOf;
  }

  lemma OnlyPlanAdded(db: Tables, t: Transition)
    requires t.events != [] && StageOutcomeOf(db, t).Applied?
    ensures t.id in Commit(db, t).transitions && Commit(db, t).transitions[t.id].plan == t
    ensures forall tid | tid in Commit(db, t).transitions && tid !in db.transitions :: tid == t.id
  {
    hide StagedInstance, WithEvents, WithWork;
  }

  lemma ConfirmMove(registry: Registry, s: System, key: ClaimKey)
    requires SystemOk(registry, s)
    ensures SystemOk(registry, Advance(registry, s, Confirm(key)))
  {
    hide SystemOk, StoreOk, ApplyAll, ViewOk, StartPlanOk;
    if key in s.runs && s.runs[key].phase.Starting? {
      PhaseIsOk(registry, s, key);
      if Reconcile(s.db, s.runs[key].phase.plan).TransitionCommitted? {
        SamePlanOk(s.runs[key], Started(s.runs[key].phase.plan), s.runs[key].phase.plan);
        PhaseMoved(registry, s, key, Started(s.runs[key].phase.plan));
      }
    }
  }

  lemma InvokeMove(registry: Registry, s: System, key: ClaimKey)
    requires SystemOk(registry, s)
    ensures SystemOk(registry, Advance(registry, s, Invoke(key)))
  {
    hide StoreOk, LeasesOk, WindowsDisjoint, DueIsFresh, StartsReplay, StartPlanOk, ViewOk, ApplyAll;
    if key in s.runs && s.runs[key].phase.Started? && s.runs[key].phase.plan.events != [] {
      var run := s.runs[key];
      PhaseIsOk(registry, s, key);
      SamePlanOk(run, Called(run.phase.plan), run.phase.plan);
      PhaseMoved(registry, s, key, Called(run.phase.plan));
      var between := s.(runs := s.runs[key := run.(phase := Called(run.phase.plan))]);
      var t := Advance(registry, s, Invoke(key));
      assert t == between.(calls := t.calls);
      SameRunsSameLeases(between, t);
      forall k | 0 <= k < |t.calls| ensures CallOk(t, t.calls[k]) {
        if k < |s.calls| {
          assert CallOk(between, between.calls[k]);
        }
      }
    }
  }

  lemma SameRunsSameLeases(s: System, t: System)
    requires t.db == s.db && t.runs == s.runs
    ensures LeasesOk(s) ==> LeasesOk(t)
    ensures WindowsDisjoint(s) ==> WindowsDisjoint(t)
  {
    hide LeaseOk;
  }

  lemma StopMove(registry: Registry, s: System, key: ClaimKey)
    requires SystemOk(registry, s)
    ensures SystemOk(registry, Advance(registry, s, Stop(key)))
  {
    hide SystemOk;
    if key in s.runs && !s.runs[key].phase.Called? {
      PhaseMoved(registry, s, key, Stopped);
    }
  }

  // --- runs ---------------------------------------------------------------

  lemma MoveKeeps(registry: Registry, s: System, m: Move)
    requires SystemOk(registry, s)
    ensures SystemOk(registry, Advance(registry, s, m))
  {
    match m {
      case ClaimWork(r) => ClaimKeepsSystem(registry, s, r);
      case View(key) => ViewMove(registry, s, key);
      case Plan(key, now) => PlanMove(registry, s, key, now);
      case Send(key) => SendMove(registry, s, key);
      case Confirm(key) => ConfirmMove(registry, s, key);
      case Invoke(key) => InvokeMove(registry, s, key);
      case Stop(key) => StopMove(registry, s, key);
      case Others(op) =>
        hide SystemOk, Harmless, Perform;
        if Harmless(s.db, op) {
          OthersKeep(registry, s, op);
        }
    }
  }

  lemma IdleIsOk(registry: Registry)
    ensures SystemOk(registry, IDLE)
  {
    hide StoreOk;
    NoTablesEmpty();
    EmptyIsOk(NO_TABLES);
  }

  lemma {:induction false} ReachableSystemOk(registry: Registry, moves: seq<Move>)
    ensures SystemOk(registry, AdvanceAll(registry, IDLE, moves))
  {
    hide SystemOk, Advance;
    if moves == [] {
      IdleIsOk(registry);
    } else {
      ReachableSystemOk(registry, moves[..|moves| - 1]);
      MoveKeeps(registry, AdvanceAll(registry, IDLE, moves[..|moves| - 1]), moves[|moves| - 1]);
    }
  }

  /**
   * At most one handler call per attempt. Over any run whatever of claims,
   * crashes, lost replies, redeliveries and stale workers, no two handler calls
   * are for the same attempt of the same step of the same instance.
   */
  lemma AtMostOneCallPerAttempt(registry: Registry, moves: seq<Move>, j: nat, k: nat)
    requires j < k < |AdvanceAll(registry, IDLE, moves).calls|
    ensures var calls := AdvanceAll(registry, IDLE, moves).calls;
            !(calls[j].kind == calls[k].kind && calls[j].instanceID == calls[k].instanceID &&
              calls[j].stepName == calls[k].stepName && calls[j].attempt == calls[k].attempt)
  {
    hide SystemOk, AdvanceAll;
    ReachableSystemOk(registry, moves);
    CallsAreDistinct(registry, AdvanceAll(registry, IDLE, moves), j, k);
  }

  // --- the bound is attained ----------------------------------------------

  /** On the current view a start commits exactly when its identity is unused and a position is left. */
  lemma CurrentStartApplies(registry: Registry, db: Tables, run: Run, view: Instance, plan: Transition)
    requires StoreOk(db) && M.IsView(registry, db, run.lease.work.instanceID, view)
    requires StartPlanOk(run, plan) && Addresses(plan, view)
    ensures StageOutcomeOf(db, plan).Applied? <==> plan.id !in db.transitions && view.sequence < MAX_STORED_SEQUENCE
  {
    hide StoreOk, ReplayHistory, HistoryOf, Settled, ValidEvents, T.IsStartOf;
    M.ViewFacts(registry, db, run.lease.work.instanceID, view);
    M.SettledPosition(registry, view);
    HistoryParts(db);
    hide RowsAgree, PlansStored, Tiled, HistoryFull, ValidEvent;
    assert plan.events[0].sequence == view.sequence + 1;
  }

  /** The moves of one processing call that nobody disturbs. */
  function Undisturbed(key: ClaimKey, now: Time): seq<Move> {
    [View(key), Plan(key, now), Send(key), Confirm(key), Invoke(key)]
  }

  lemma UndisturbedUnfolds(registry: Registry, s: System, key: ClaimKey, now: Time)
    ensures AdvanceAll(registry, s, Undisturbed(key, now)) ==
            Advance(registry, Advance(registry, Advance(registry, Advance(registry, Advance(registry, s,
              View(key)), Plan(key, now)), Send(key)), Confirm(key)), Invoke(key))
  {
    hide Advance, AdvanceAll;
    var moves := Undisturbed(key, now);
    forall k | 0 < k <= 5
      ensures AdvanceAll(registry, s, moves[..k]) == Advance(registry, AdvanceAll(registry, s, moves[..k - 1]), moves[k - 1])
    {
      LastMove(registry, s, moves[..k]);
      assert moves[..k][..k - 1] == moves[..k - 1];
    }
    assert moves[..0] == [] && moves[..5] == moves;
    NoMoves(registry, s);
    assert AdvanceAll(registry, s, moves[..1]) == Advance(registry, s, View(key));
    assert AdvanceAll(registry, s, moves[..2]) == Advance(registry, AdvanceAll(registry, s, moves[..1]), Plan(key, now));
    assert AdvanceAll(registry, s, moves[..3]) == Advance(registry, AdvanceAll(registry, s, moves[..2]), Send(key));
    assert AdvanceAll(registry, s, moves[..4]) == Advance(registry, AdvanceAll(registry, s, moves[..3]), Confirm(key));
  }

  lemma LastMove(registry: Registry, s: System, moves: seq<Move>)
    requires moves != []
    ensures AdvanceAll(registry, s, moves) ==
            Advance(registry, AdvanceAll(registry, s, moves[..|moves| - 1]), moves[|moves| - 1])
  {
    hide Advance;
  }

  lemma NoMoves(registry: Registry, s: System)
    ensures AdvanceAll(registry, s, []) == s
  {
  }

  /** The last three moves of a call whose start can still be committed. */
  lemma StartableCalls(registry: Registry, s: System, key: ClaimKey)
    requires key in s.runs && s.runs[key].phase.Starting? && s.runs[key].phase.plan.events != []
    requires StageOutcomeOf(s.db, s.runs[key].phase.plan).Applied?
    ensures var run, plan := s.runs[key], s.runs[key].phase.plan;
            Advance(registry, Advance(registry, Advance(registry, s, Send(key)), Confirm(key)), Invoke(key)) ==
            System(Commit(s.db, plan), s.runs[key := run.(phase := Called(plan))],
                   s.calls + [Call(run.kind, plan.events[0].instanceID, plan.events[0].stepName, plan.events[0].attempt, key)])
  {
    hide StageOutcomeOf, Commit;
    var run, plan := s.runs[key], s.runs[key].phase.plan;
    OnlyPlanAdded(s.db, plan);
    var sent := Advance(registry, s, Send(key));
    var confirmed := Advance(registry, sent, Confirm(key));
    assert confirmed == sent.(runs := s.runs[key := run.(phase := Started(plan))]);
    assert confirmed.runs[key := run.(phase := Called(plan))] == s.runs[key := run.(phase := Called(plan))];
  }

  /** Once its start cannot be committed and is not durable, the last three moves make no call. */
  lemma RefusedMakesNoCall(registry: Registry, s: System, key: ClaimKey)
    requires key in s.runs && s.runs[key].phase.Starting? && s.runs[key].phase.plan.events != []
    requires !StageOutcomeOf(s.db, s.runs[key].phase.plan).Applied? && !Durable(s.db, s.runs[key].phase.plan)
    ensures Advance(registry, Advance(registry, Advance(registry, s, Send(key)), Confirm(key)), Invoke(key)) == s
  {
    hide StageOutcomeOf;
  }

  /** No start addressing the current view is durable already: its position would be taken. */
  lemma CurrentStartIsNew(registry: Registry, db: Tables, run: Run, view: Instance, plan: Transition)
    requires StoreOk(db) && M.IsView(registry, db, run.lease.work.instanceID, view)
    requires StartPlanOk(run, plan) && Addresses(plan, view)
    ensures !Durable(db, plan)
  {
    hide StoreOk, M.IsView, Settled, ValidEvents, ValidTransition, T.IsStartOf, HistoryOf;
    if Durable(db, plan) {
      M.ViewFacts(registry, db, run.lease.work.instanceID, view);
      StoreTheorems.DurableEvents(db, plan.id);
      StoreTheorems.StoredHistoryValid(db, view.id);
    }
  }

  /**
   * The bound is attained: a claim whose start can be planned on the current
   * history makes its call, if nobody disturbs it, exactly when no start of its
   * work item is durable yet.
   */
  lemma UndisturbedRunCalls(registry: Registry, s: System, key: ClaimKey, view: Instance, now: Time)
    requires SystemOk(registry, s) && key in s.runs && s.runs[key].phase.Leased?
    requires M.IsView(registry, s.db, s.runs[key].lease.work.instanceID, view) && view.sequence < MAX_STORED_SEQUENCE
    requires PlanStart(registry, s.runs[key], view, now).Some?
    ensures var run, plan := s.runs[key], PlanStart(registry, s.runs[key], view, now).value;
            plan.events != [] &&
            AdvanceAll(registry, s, Undisturbed(key, now)).calls ==
            if StartID(run.kind, key.workID) in s.db.transitions then s.calls
            else s.calls + [Call(run.kind, run.lease.work.instanceID, plan.events[0].stepName, plan.events[0].attempt, key)]
  {
    hide SystemOk, StoreOk, StartPlanOk, AdvanceAll, PlanStart, ApplyAll, StageOutcomeOf, Commit, ViewOk;
    var run, plan := s.runs[key], PlanStart(registry, s.runs[key], view, now).value;
    PhaseIsOk(registry, s, key);
    CurrentView(registry, s, key, view);
    PlannedStart(registry, s.db, run, view, now);
    StartPlanFacts(run, plan);
    CurrentStartApplies(registry, s.db, run, view, plan);
    CurrentStartIsNew(registry, s.db, run, view, plan);
    var viewing := Advance(registry, s, View(key));
    var starting := Advance(registry, viewing, Plan(key, now));
    SamePlanned(registry, run, Viewing(view), view, now);
    assert starting == s.(runs := s.runs[key := run.(phase := Starting(view, plan))]);
    UndisturbedUnfolds(registry, s, key, now);
    if plan.id in s.db.transitions {
      RefusedMakesNoCall(registry, starting, key);
    } else {
      StartableCalls(registry, starting, key);
    }
  }

  lemma SamePlanned(registry: Registry, run: Run, phase: Phase, view: Instance, now: Time)
    ensures PlanStart(registry, run.(phase := phase), view, now) == PlanStart(registry, run, view, now)
  {
    hide NewActivityAttemptStart, NewCompensationAttemptStart, NewChildStartAttempt;
  }

  lemma StartPlanFacts(run: Run, plan: Transition)
    requires StartPlanOk(run, plan)
    ensures |plan.events| == 1 && plan.id == StartID(run.kind, run.lease.work.id)
    ensures plan.events[0].instanceID == run.lease.work.instanceID
  {
    hide ValidEvents, T.IsStartOf;
  }

  lemma CurrentView(registry: Registry, s: System, key: ClaimKey, view: Instance)
    requires SystemOk(registry, s) && key in s.runs
    requires M.IsView(registry, s.db, s.runs[key].lease.work.instanceID, view)
    ensures ViewOk(registry, s.db, s.runs[key].lease.work.instanceID, view) && s.runs[key].lease.work.id == key.workID
    ensures ReplayHistory(registry, HistoryOf(s.db, s.runs[key].lease.work.instanceID)) == Ok(view)
  {
    hide StoreOk, StartsReplay, WindowsDisjoint, DueIsFresh, PhasesOk, CallsOk, Settled, ReplayHistory, HistoryOf, SameWork;
    M.ViewFacts(registry, s.db, s.runs[key].lease.work.instanceID, view);
    assert LeaseOk(s.db, key, s.runs[key]);
  }

  // --- renewals -----------------------------------------------------------

  /** While the fence lasts, the row's expiry was set at `at` for this duration. */
  predicate SetAt(db: Tables, id: Ident, token: nat, at: Time, duration: Duration) {
    && id in db.work && db.work[id].token >= token
    && (db.work[id].token == token && db.work[id].state.WorkLeased? ==>
          db.work[id].expiresAt == Min(at + duration, db.work[id].work.deadline))
  }

  predicate RenewsFence(op: Op, id: Ident, token: nat) {
    op.DoRenew? && op.renewal.workID == id && op.renewal.token == token
  }

  /** When an operation on the store leaves the fence's expiry set. */
  function SetTime(db: Tables, op: Op, id: Ident, token: nat, at: Time): Time {
    if RenewsFence(op, id, token) && Renewable(db, op.renewal) then op.renewal.now else at
  }

  lemma SetTimeFollows(db: Tables, op: Op, id: Ident, token: nat, at: Time, duration: Duration)
    requires StoreOk(db) && ValidOp(op) && SetAt(db, id, token, at, duration)
    requires RenewsFence(op, id, token) ==> op.renewal.extendBy == duration
    ensures SetAt(Perform(db, op), id, token, SetTime(db, op, id, token, at), duration)
  {
    hide StoreOk, Staged, StageOutcomeOf, ValidTransition, ValidResolution, FenceResolved, Chosen, Commit;
    match op
    case DoCommit(t) => CommitLeavesRow(db, t, id);
    case DoClaim(r) =>
    case DoRenew(r) =>
    case DoComplete(c) =>
    case DoFail(f) =>
    case DoResolve(r) =>
  }

  lemma CommitLeavesRow(db: Tables, t: Transition, id: Ident)
    requires StoreOk(db) && ValidOp(DoCommit(t)) && id in db.work
    ensures t.events != [] && id in Commit(db, t).work && Commit(db, t).work[id] == db.work[id]
  {
    hide StoreOk, StageOutcomeOf, Staged, ContiguousFrom, TimesOrdered, Anchored, StartsRight, DistinctWork;
    if StageOutcomeOf(db, t).Applied? {
      CommitKeepsWork(db, t);
    }
  }

  /** The fence is renewed with one duration by a clock that never goes back, starting at the claim. */
  predicate OrderlyRenewals(ops: seq<Op>, id: Ident, token: nat, at: Time, duration: Duration) {
    && (forall k | 0 <= k < |ops| && RenewsFence(ops[k], id, token) ::
          ops[k].renewal.extendBy == duration && ops[k].renewal.now >= at)
    && (forall j, k | 0 <= j < k < |ops| && RenewsFence(ops[j], id, token) && RenewsFence(ops[k], id, token) ::
          ops[j].renewal.now <= ops[k].renewal.now)
  }

  /** When a run of operations leaves the fence's expiry set: at its start, or at one of its renewals. */
  lemma {:induction false} LastSet(db: Tables, ops: seq<Op>, id: Ident, token: nat, at: Time, duration: Duration)
    returns (latest: Time)
    requires StoreOk(db) && ValidOps(ops) && SetAt(db, id, token, at, duration)
    requires OrderlyRenewals(ops, id, token, at, duration)
    ensures StoreOk(PerformAll(db, ops)) && SetAt(PerformAll(db, ops), id, token, latest, duration)
    ensures latest == at || exists k | 0 <= k < |ops| :: RenewsFence(ops[k], id, token) && ops[k].renewal.now == latest
  {
    hide StoreOk, SetAt, ValidOp, Perform, RenewsFence;
    latest := at;
    if ops != [] {
      var init, last := ops[..|ops| - 1], ops[|ops| - 1];
      latest := LastSet(db, init, id, token, at, duration);
      var before := PerformAll(db, init);
      PerformKeeps(before, last);
      SetTimeFollows(before, last, id, token, latest, duration);
      latest := SetTime(before, last, id, token, latest);
    }
  }

  /**
   * A worker that renews with the duration it claimed with, by a clock that
   * never goes back, never shortens its lease, whatever others do meanwhile.
   */
  lemma RenewalsNeverShorten(db: Tables, r: ClaimRequest, id: Ident, ops: seq<Op>, k: nat)
    requires StoreOk(db) && ValidClaim(r) && ClaimFits(db, r) && id in Chosen(db, r)
    requires ValidOps(ops) && OrderlyRenewals(ops, id, db.work[id].token + 1, r.now, r.duration)
    requires k < |ops| && RenewsFence(ops[k], id, db.work[id].token + 1)
    ensures NeverShortens(PerformAll(Claim(db, r), ops[..k]), ops[k].renewal)
  {
    hide StoreOk, ClaimFits, Precedes, PerformAll, OrderlyRenewals;
    PerformKeeps(db, DoClaim(r));
    hide ValidOp;
    var token := db.work[id].token + 1;
    OrderlyPrefix(ops, id, token, r.now, r.duration, k);
    var at := LastSet(Claim(db, r), ops[..k], id, token, r.now, r.duration);
    OrderlyAfter(ops, id, token, r.now, r.duration, k, at);
  }

  lemma OrderlyPrefix(ops: seq<Op>, id: Ident, token: nat, at: Time, duration: Duration, k: nat)
    requires OrderlyRenewals(ops, id, token, at, duration) && k <= |ops|
    ensures OrderlyRenewals(ops[..k], id, token, at, duration)
  {
    hide RenewsFence;
  }

  lemma OrderlyAfter(ops: seq<Op>, id: Ident, token: nat, at: Time, duration: Duration, k: nat, earlier: Time)
    requires OrderlyRenewals(ops, id, token, at, duration) && k < |ops| && RenewsFence(ops[k], id, token)
    requires earlier == at ||
             exists j | 0 <= j < |ops[..k]| :: RenewsFence(ops[..k][j], id, token) && ops[..k][j].renewal.now == earlier
    ensures earlier <= ops[k].renewal.now && ops[k].renewal.extendBy == duration
  {
  }
}
