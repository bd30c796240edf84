/**
 * The leased processors as one concurrent system: any number of claims, runs,
 * crashes, lost replies and other writers, interleaved arbitrarily. No handler
 * is ever called twice for the same attempt of the same step.
 */
module Invocations {
  import opened Basics
  import opened Definitions
  import opened Events
  import opened Replay
  import opened Transitions
  import opened Planners
  import opened Acceptance
  import opened PlannerSoundness
  import opened Store
  import opened StoreInvariants
  import opened StoreRuns
  import StoreTheorems
  import M = MultiWriter
  import T = ReplayTheorems

  /** One claim of one work item; each is processed by one call. */
  datatype ClaimKey = ClaimKey(workID: Ident, token: nat)

  /** How far a processing call has come; the start plan is remembered once made. */
  datatype Phase =
    | Leased
    | Viewing(view: Instance)
    | Starting(view: Instance, plan: Transition)
    | Started(plan: Transition)
    | Called(plan: Transition)
    | Stopped

  datatype Run = Run(kind: ProcessorKind, lease: WorkLease, phase: Phase)

  /** A handler call for one attempt. */
  datatype Call = Call(kind: ProcessorKind, instanceID: Ident, stepName: string, attempt: Uint32, caller: ClaimKey)

  datatype System = System(db: Tables, runs: map<ClaimKey, Run>, calls: seq<Call>)

  const IDLE: System := System(NO_TABLES, map[], [])

  function ProcessorOf(kind: WorkKind): Option<ProcessorKind> {
    match kind
    case WorkActivity => Some(ActivityProcessor)
    case WorkCompensation => Some(CompensationProcessor)
    case WorkChild => Some(ChildProcessor)
    case _ => None
  }

  function StartID(kind: ProcessorKind, workID: Ident): Ident {
    Hashed(kind, "start", workID)
  }

  predicate IsStartID(id: Ident) {
    id.Hashed? && id.phase == "start"
  }

  /** The start transition a processor plans from its lease, its view and one clock reading. */
  function PlanStart(registry: Registry, run: Run, view: Instance, now: Time): Option<Transition> {
    var key := DefinitionKey(view.definition.name, view.definition.version);
    if key !in registry.definitions then None
    else
      var spec := StartSpec(StartID(run.kind, run.lease.work.id), run.lease, view, registry.definitions[key], now);
      match run.kind
      case ActivityProcessor => NewActivityAttemptStart(spec)
      case CompensationProcessor => NewCompensationAttemptStart(spec)
      case ChildProcessor => NewChildStartAttempt(spec)
  }

  /** One atomic step of anybody; a step whose guard fails does nothing. */
  datatype Move =
    | ClaimWork(r: ClaimRequest)
    | View(key: ClaimKey)
    | Plan(key: ClaimKey, now: Time)
    | Send(key: ClaimKey)
    | Confirm(key: ClaimKey)
    | Invoke(key: ClaimKey)
    | Stop(key: ClaimKey)
    | Others(op: Op)

  predicate NeverShortens(db: Tables, r: Renewal) {
    Renewable(db, r) ==> Min(r.now + r.extendBy, db.work[r.workID].work.deadline) >= db.work[r.workID].expiresAt
  }

  /**
   * What others may do: commit anything but a processor's start, renew without
   * shortening, complete, dead-letter, discard. The processors never release
   * work for retry, and dead letters are not put back.
   */
  predicate Harmless(db: Tables, op: Op) {
    && ValidOp(op)
    && match op
       case DoCommit(t) => !IsStartID(t.id)
       case DoClaim(_) => false
       case DoRenew(r) => NeverShortens(db, r)
       case DoComplete(_) => true
       case DoFail(f) => f.retryAt.None?
       case DoResolve(r) => r.action.DeadLetterDiscard?
  }

  function TokenAfter(db: Tables, id: Ident): nat
    requires id in db.work
  {
    db.work[id].token + 1
  }

  /** One new run for every leased item of a kind some processor handles. */
  function NewRuns(db: Tables, r: ClaimRequest): map<ClaimKey, Run> {
    map id | id in Chosen(db, r) && ProcessorOf(db.work[id].work.kind).Some? &&
             LeaseOf(ClaimedRow(db.work[id], r), r.now).Some? ::
      ClaimKey(id, TokenAfter(db, id)) :=
        Run(ProcessorOf(db.work[id].work.kind).value, LeaseOf(ClaimedRow(db.work[id], r), r.now).value, Leased)
  }

  function Advance(registry: Registry, s: System, m: Move): System {
    match m
    case ClaimWork(r) =>
      if !ValidClaim(r) || !ClaimFits(s.db, r) then s
      else s.(db := Claim(s.db, r), runs := s.runs + NewRuns(s.db, r))
    case View(key) =>
      if key !in s.runs || !s.runs[key].phase.Leased? then s
      else
        (match ReplayHistory(registry, HistoryOf(s.db, s.runs[key].lease.work.instanceID))
         case Err(_) => s.(runs := s.runs[key := s.runs[key].(phase := Stopped)])
         case Ok(view) => s.(runs := s.runs[key := s.runs[key].(phase := Viewing(view))]))
    case Plan(key, now) =>
      if key !in s.runs || !s.runs[key].phase.Viewing? then s
      else
        var view := s.runs[key].phase.view;
        (match PlanStart(registry, s.runs[key], view, now)
         case None => s.(runs := s.runs[key := s.runs[key].(phase := Stopped)])
         case Some(plan) => s.(runs := s.runs[key := s.runs[key].(phase := Starting(view, plan))]))
    case Send(key) =>
      if key !in s.runs || !s.runs[key].phase.Starting? || s.runs[key].phase.plan.events == [] then s
      else s.(db := Commit(s.db, s.runs[key].phase.plan))
    case Confirm(key) =>
      if key !in s.runs || !s.runs[key].phase.Starting? || !Reconcile(s.db, s.runs[key].phase.plan).TransitionCommitted?
      then s
      else s.(runs := s.runs[key := s.runs[key].(phase := Started(s.runs[key].phase.plan))])
    case Invoke(key) =>
      if key !in s.runs || !s.runs[key].phase.Started? || s.runs[key].phase.plan.events == [] then s
      else
        var run, e := s.runs[key], s.runs[key].phase.plan.events[0];
        s.(runs := s.runs[key := run.(phase := Called(run.phase.plan))],
           calls := s.calls + [Call(run.kind, e.instanceID, e.stepName, e.attempt, key)])
    case Stop(key) =>
      if key !in s.runs || s.runs[key].phase.Called? then s
      else s.(runs := s.runs[key := s.runs[key].(phase := Stopped)])
    case Others(op) =>
      if !Harmless(s.db, op) then s else s.(db := Perform(s.db, op))
  }

  function AdvanceAll(registry: Registry, s: System, moves: seq<Move>): System {
    if moves == [] then s
    else Advance(registry, AdvanceAll(registry, s, moves[..|moves| - 1]), moves[|moves| - 1])
  }

  // --- invariants ---------------------------------------------------------

  /** A run's lease is a past claim of its work item. */
  predicate LeaseOk(db: Tables, key: ClaimKey, run: Run) {
    && key.workID in db.work && 0 < key.token <= db.work[key.workID].token
    && run.lease.work.id == key.workID && run.lease.token == key.token
    && run.lease.claimedAt < run.lease.expiresAt
    && SameWork(run.lease.work, db.work[key.workID].work)
    && ProcessorOf(run.lease.work.kind) == Some(run.kind)
    && (db.work[key.workID].state.WorkLeased? ==> run.lease.expiresAt <= db.work[key.workID].expiresAt)
  }

  predicate LeasesOk(s: System) {
    forall key | key in s.runs :: LeaseOk(s.db, key, s.runs[key])
  }

  /** Claim windows of one work item follow each other without overlap. */
  predicate WindowsDisjoint(s: System) {
    forall a, b | a in s.runs && b in s.runs && a.workID == b.workID && a.token < b.token ::
      s.runs[a].lease.expiresAt <= s.runs[b].lease.claimedAt
  }

  /** Nothing claimed goes back to due. */
  predicate DueIsFresh(db: Tables) {
    forall id | id in db.work && db.work[id].state.WorkDue? :: db.work[id].token == 0
  }

  /** While nothing was appended since it was taken, a view is the current instance. */
  predicate ViewOk(registry: Registry, db: Tables, id: Ident, view: Instance) {
    && id in db.instances && view.id == id && Settled(registry, view) && view.sequence <= db.instances[id].sequence
    && (view.sequence == db.instances[id].sequence ==> M.IsView(registry, db, id, view))
  }

  function FamilyOf(kind: ProcessorKind): T.Family {
    match kind
    case ActivityProcessor => T.OfActivity
    case CompensationProcessor => T.OfCompensation
    case ChildProcessor => T.OfChild
  }

  /** A start plan: one start event, dated inside the lease, under the work item's own identity. */
  predicate StartPlanOk(run: Run, plan: Transition) {
    && plan.id == StartID(run.kind, run.lease.work.id) && plan.instanceID == run.lease.work.instanceID
    && ValidTransition(plan) && ValidEvents(plan.events) && |plan.events| == 1 && plan.work == []
    && T.IsStartOf(FamilyOf(run.kind), plan.events[0].stepName, plan.events[0])
    && run.lease.claimedAt <= plan.events[0].occurredAt < run.lease.expiresAt
  }

  predicate Durable(db: Tables, plan: Transition) {
    plan.id in db.transitions && db.transitions[plan.id].plan == plan
  }

  predicate PhaseOk(registry: Registry, db: Tables, run: Run) {
    match run.phase
    case Leased => true
    case Viewing(view) => ViewOk(registry, db, run.lease.work.instanceID, view)
    case Starting(view, plan) =>
      && ViewOk(registry, db, run.lease.work.instanceID, view) && StartPlanOk(run, plan) && Addresses(plan, view)
      && ApplyAll(registry, view, plan.events).Ok?
    case Started(plan) => StartPlanOk(run, plan) && Durable(db, plan)
    case Called(plan) => StartPlanOk(run, plan) && Durable(db, plan)
    case Stopped => true
  }

  predicate PhasesOk(registry: Registry, s: System) {
    forall key | key in s.runs :: PhaseOk(registry, s.db, s.runs[key])
  }

  /** Up to and including each durable start, its history is accepted by replay. */
  predicate StartsReplay(registry: Registry, db: Tables) {
    forall tid | tid in db.transitions && IsStartID(tid) :: StartReplays(registry, db, db.transitions[tid].plan)
  }

  predicate StartReplays(registry: Registry, db: Tables, t: Transition) {
    var h := HistoryOf(db, t.instanceID);
    var end := t.expectedSequence + |t.events|;
    end <= |h| && ApplyAll(registry, BLANK, h[..end]).Ok?
  }

  /** Every recorded call was made by a run that has called, for the attempt its plan starts. */
  predicate CallsOk(s: System) {
    && (forall k | 0 <= k < |s.calls| :: CallOk(s, s.calls[k]))
    && (forall j, k | 0 <= j < k < |s.calls| :: s.calls[j].caller != s.calls[k].caller)
  }

  predicate CallOk(s: System, c: Call) {
    && c.caller in s.runs && s.runs[c.caller].phase.Called? && s.runs[c.caller].kind == c.kind
    && var plan := s.runs[c.caller].phase.plan;
       plan.events != [] && plan.events[0].instanceID == c.instanceID && plan.events[0].stepName == c.stepName &&
       plan.events[0].attempt == c.attempt
  }

  predicate SystemOk(registry: Registry, s: System) {
    && StoreOk(s.db) && LeasesOk(s) && WindowsDisjoint(s) && DueIsFresh(s.db) && PhasesOk(registry, s)
    && StartsReplay(registry, s.db) && CallsOk(s)
  }

  // --- the theorem, from the invariants -----------------------------------

  /** Two calls by different runs of one work item cannot both rest on the one durable start. */
  lemma SameWorkSameRun(registry: Registry, s: System, a: ClaimKey, b: ClaimKey)
    requires SystemOk(registry, s) && a in s.runs && b in s.runs && s.runs[a].phase.Called? && s.runs[b].phase.Called?
    requires a.workID == b.workID && s.runs[a].kind == s.runs[b].kind
    ensures a == b
  {
    hide StoreOk, StartsReplay, CallsOk, ValidTransition, ValidEvents, T.IsStartOf, SameWork;
    assert PhaseOk(registry, s.db, s.runs[a]) && PhaseOk(registry, s.db, s.runs[b]);
    assert LeaseOk(s.db, a, s.runs[a]) && LeaseOk(s.db, b, s.runs[b]);
  }

  /** Two durable starts of one step in one history start different attempts. */
  lemma DifferentStartsDiffer(registry: Registry, db: Tables, p: Transition, q: Transition, f: T.Family)
    requires StoreOk(db) && StartsReplay(registry, db) && Durable(db, p) && Durable(db, q) && p.id != q.id
    requires IsStartID(p.id) && IsStartID(q.id) && p.instanceID == q.instanceID
    requires |p.events| == 1 && |q.events| == 1 && p.events[0].stepName == q.events[0].stepName
    requires T.IsStartOf(f, p.events[0].stepName, p.events[0]) && T.IsStartOf(f, q.events[0].stepName, q.events[0])
    ensures p.events[0].attempt != q.events[0].attempt
  {
    hide ApplyAll, T.IsStartOf, HistoryUpTo, ValidEvent;
    if p.expectedSequence < q.expectedSequence {
      OrderedStartsDiffer(registry, db, p, q, f);
    } else {
      StartsApart(db, p, q);
      OrderedStartsDiffer(registry, db, q, p, f);
    }
  }

  lemma StartsApart(db: Tables, p: Transition, q: Transition)
    requires StoreOk(db) && Durable(db, p) && Durable(db, q) && p.id != q.id && p.instanceID == q.instanceID
    requires |p.events| == 1 && |q.events| == 1
    ensures p.expectedSequence != q.expectedSequence
  {
    hide HistoryKeyed, HistoryFull, RowsAgree, WorkOk, WorkAnchored, ResolutionsOk, StoredAt, CoveredUpTo;
    assert PlanStored(db, db.transitions[p.id]) && PlanStored(db, db.transitions[q.id]);
    assert Apart(db.transitions[p.id], db.transitions[q.id]);
  }

  lemma OrderedStartsDiffer(registry: Registry, db: Tables, p: Transition, q: Transition, f: T.Family)
    requires StoreOk(db) && StartsReplay(registry, db) && Durable(db, p) && Durable(db, q)
    requires IsStartID(q.id) && p.instanceID == q.instanceID && p.expectedSequence < q.expectedSequence
    requires |p.events| == 1 && |q.events| == 1 && p.events[0].stepName == q.events[0].stepName
    requires T.IsStartOf(f, p.events[0].stepName, p.events[0]) && T.IsStartOf(f, q.events[0].stepName, q.events[0])
    ensures p.events[0].attempt < q.events[0].attempt
  {
    hide ApplyAll, T.IsStartOf, HistoryUpTo, ValidEvent, StoreOk;
    StoreTheorems.DurableEvents(db, p.id);
    StoreTheorems.DurableEvents(db, q.id);
    var h := HistoryOf(db, p.instanceID);
    StoreTheorems.StoredHistoryValid(db, p.instanceID);
    var a, b := p.expectedSequence, q.expectedSequence;
    assert StartReplays(registry, db, q);
    var prefix := h[..b + 1];
    assert h[a..a + 1][0] == h[a] && h[b..b + 1][0] == h[b];
    assert prefix[a] == p.events[0] && prefix[b] == q.events[0];
    T.StartsNeverRepeat(registry, f, prefix, p.events[0].stepName, a, b);
  }

  /**
   * At most once: in every reachable state no two handler calls are for the
   * same attempt of the same step of the same instance.
   */
  lemma CallsAreDistinct(registry: Registry, s: System, j: nat, k: nat)
    requires SystemOk(registry, s) && j < k < |s.calls|
    ensures s.calls[j].(caller := s.calls[k].caller) != s.calls[k]
  {
    hide StoreOk, StartsReplay, LeasesOk, WindowsDisjoint, T.IsStartOf, ValidTransition, ValidEvents, PhaseOk;
    var a, b := s.calls[j], s.calls[k];
    if a.(caller := b.caller) == b {
      assert CallOk(s, a) && CallOk(s, b);
      var p, q := s.runs[a.caller].phase.plan, s.runs[b.caller].phase.plan;
      CalledRun(registry, s, a.caller);
      CalledRun(registry, s, b.caller);
      if a.caller.workID == b.caller.workID {
        SameWorkSameRun(registry, s, a.caller, b.caller);
      } else {
        DifferentStartsDiffer(registry, s.db, p, q, FamilyOf(a.kind));
      }
    }
  }

  lemma CalledRun(registry: Registry, s: System, key: ClaimKey)
    requires SystemOk(registry, s) && key in s.runs && s.runs[key].phase.Called?
    ensures var run, plan := s.runs[key], s.runs[key].phase.plan;
            && StartPlanOk(run, plan) && Durable(s.db, plan) && plan.id == StartID(run.kind, key.workID)
            && plan.events[0].instanceID == plan.instanceID && IsStartID(plan.id)
  {
    hide StoreOk, StartsReplay, WindowsDisjoint, T.IsStartOf, ValidEvents, CallsOk, SameWork;
    assert PhaseOk(registry, s.db, s.runs[key]);
    assert LeaseOk(s.db, key, s.runs[key]);
  }
}
