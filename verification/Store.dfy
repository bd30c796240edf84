/**
 * The durable store as tables, and each of its operations as one atomic step
 * from tables to tables.
 */
module Store {
  import opened Basics
  import opened Definitions
  import opened Events
  import opened Transitions

  datatype InstanceRow = InstanceRow(
    definition: DefinitionRef, sequence: nat, createdAt: Time, updatedAt: Time, archivedAt: Option<Time>)

  /** The plan stands for its fingerprint; the other columns repeat parts of it. */
  datatype TransitionRow = TransitionRow(plan: Transition, committedSequence: nat, committedAt: Time)

  datatype EventKey = EventKey(instanceID: Ident, sequence: nat)

  datatype WorkState = WorkDue | WorkLeased | WorkFinished | WorkDeadLettered

  datatype WorkRow = WorkRow(
    work: PendingWork, state: WorkState, attempts: nat, owner: Ident, token: nat, expiresAt: Time,
    failureCode: string, completedAt: Time)

  datatype ResolutionAction = DeadLetterRetry | DeadLetterDiscard

  /** An audited dead-letter command; its fingerprint is its content. */
  datatype Resolution = Resolution(
    commandID: Ident, workID: Ident, token: Uint64, action: ResolutionAction, actor: Ident, reason: string,
    occurredAt: Time, retryAt: Time, deadline: Time)

  predicate ValidResolution(r: Resolution) {
    && ValidIdent(r.commandID) && ValidIdent(r.workID) && r.token > 0 && ValidIdent(r.actor) && StableName(r.reason)
    && r.occurredAt > ZERO_TIME
    && if r.action.DeadLetterRetry? then r.retryAt >= r.occurredAt && r.deadline > r.retryAt
       else r.retryAt == ZERO_TIME && r.deadline == ZERO_TIME
  }

  datatype Tables = Tables(
    instances: map<Ident, InstanceRow>, transitions: map<Ident, TransitionRow>, history: map<EventKey, HistoryEvent>,
    work: map<Ident, WorkRow>, resolutions: map<Ident, Resolution>)

  const NO_TABLES: Tables := Tables(map[], map[], map[], map[], map[])

  const MAX_STORED_SEQUENCE: int := MAX_INT64
  const MAX_INT32: int := 0x7fff_ffff

  // --- committing ---------------------------------------------------------

  datatype StageOutcome = Applied | ExactReplay | Refused(error: Error)

  function LastEvent(t: Transition): HistoryEvent
    requires t.events != []
  {
    t.events[|t.events| - 1]
  }

  /** Pin after a batch: the last migration's target, if there is one. */
  function NextPin(pin: DefinitionRef, events: seq<HistoryEvent>): DefinitionRef {
    if events == [] then pin
    else
      var last := events[|events| - 1];
      if IsMigration(last.kind) then last.definition else NextPin(pin, events[..|events| - 1])
  }

  function NewRow(w: PendingWork): WorkRow {
    WorkRow(w, WorkDue, 0, NO_IDENT, 0, ZERO_TIME, "", ZERO_TIME)
  }

  /** History rows after inserting a batch. */
  function WithEvents(history: map<EventKey, HistoryEvent>, id: Ident, events: seq<HistoryEvent>)
    : map<EventKey, HistoryEvent>
  {
    if events == [] then history
    else
      var last := events[|events| - 1];
      WithEvents(history, id, events[..|events| - 1])[EventKey(id, last.sequence) := last]
  }

  function WithWork(work: map<Ident, WorkRow>, items: seq<PendingWork>): map<Ident, WorkRow> {
    if items == [] then work
    else
      var last := items[|items| - 1];
      WithWork(work, items[..|items| - 1])[last.id := NewRow(last)]
  }

  /** Why a plan cannot be staged, in the order the checks are made. */
  function StageFailure(db: Tables, t: Transition): Option<Error>
    requires t.events != []
  {
    if t.expectedSequence == 0 && t.instanceID in db.instances then Some(StoreConflict)
    else if t.expectedSequence != 0 && t.instanceID !in db.instances then Some(StoreNotFound)
    else if t.expectedSequence != 0 &&
            (db.instances[t.instanceID].sequence != t.expectedSequence ||
             db.instances[t.instanceID].definition != t.definition)
    then Some(StoreConflict)
    else if exists k | 0 <= k < |t.events| :: EventKey(t.instanceID, t.events[k].sequence) in db.history then
      Some(ConstraintViolation)
    else if exists k | 0 <= k < |t.work| :: t.work[k].id in db.work then Some(ConstraintViolation)
    else None
  }

  function StagedInstance(db: Tables, t: Transition): InstanceRow
    requires t.events != [] && (t.expectedSequence == 0 || t.instanceID in db.instances)
  {
    var first, last := t.events[0], LastEvent(t);
    var before := if t.expectedSequence == 0 then
                    InstanceRow(t.definition, 0, first.occurredAt, first.occurredAt, None)
                  else db.instances[t.instanceID];
    InstanceRow(NextPin(t.definition, t.events), last.sequence, before.createdAt, last.occurredAt,
                if before.archivedAt.Some? then before.archivedAt
                else if IsTerminalEvent(last.kind) then Some(last.occurredAt)
                else None)
  }

  function Staged(db: Tables, t: Transition): Tables
    requires t.events != [] && StageFailure(db, t).None?
  {
    db.(instances := db.instances[t.instanceID := StagedInstance(db, t)],
        transitions := db.transitions[t.id := TransitionRow(t, LastEvent(t).sequence, LastEvent(t).occurredAt)],
        history := WithEvents(db.history, t.instanceID, t.events),
        work := WithWork(db.work, t.work))
  }

  function StageOutcomeOf(db: Tables, t: Transition): StageOutcome
    requires t.events != []
  {
    if LastEvent(t).sequence > MAX_STORED_SEQUENCE then Refused(InvalidStoreRequest)
    else if t.id in db.transitions then
      if db.transitions[t.id].plan == t then ExactReplay else Refused(DuplicateTransition)
    else
      match StageFailure(db, t)
      case Some(error) => Refused(error)
      case None => Applied
  }

  /** Tables after an attempt to commit that reached the database. */
  function Commit(db: Tables, t: Transition): Tables
    requires t.events != []
  {
    if StageOutcomeOf(db, t).Applied? then Staged(db, t) else db
  }

  datatype Reconciled = TransitionMissing | TransitionCommitted | TransitionConflicting

  function Reconcile(db: Tables, t: Transition): Reconciled {
    if t.id !in db.transitions then TransitionMissing
    else if db.transitions[t.id].plan == t then TransitionCommitted
    else TransitionConflicting
  }

  /** The first `n` stored events of an instance, in order. */
  function HistoryUpTo(history: map<EventKey, HistoryEvent>, id: Ident, n: nat): seq<HistoryEvent> {
    if n == 0 || EventKey(id, n) !in history then []
    else HistoryUpTo(history, id, n - 1) + [history[EventKey(id, n)]]
  }

  function HistoryOf(db: Tables, id: Ident): seq<HistoryEvent> {
    if id in db.instances then HistoryUpTo(db.history, id, db.instances[id].sequence) else []
  }

  // --- work ---------------------------------------------------------------

  /** Collation of work identities, which breaks ties between equal times. */
  type Collation = Ident -> int

  datatype ClaimRequest = ClaimRequest(owner: Ident, now: Time, duration: Duration, limit: nat, collation: Collation)

  predicate ValidClaim(r: ClaimRequest) {
    ValidIdent(r.owner) && r.now > ZERO_TIME && 0 < r.duration <= MAX_LEASE && 0 < r.limit <= 100
  }

  predicate Eligible(row: WorkRow, now: Time) {
    && ((row.state.WorkDue? && row.work.availableAt <= now) || (row.state.WorkLeased? && row.expiresAt <= now))
    && row.work.deadline > now
  }

  function Candidates(db: Tables, now: Time): set<Ident> {
    set id | id in db.work && Eligible(db.work[id], now)
  }

  /** Earlier availability first, then collation. */
  predicate Sooner(db: Tables, c: Collation, a: Ident, b: Ident)
    requires a in db.work && b in db.work
  {
    var x, y := db.work[a].work.availableAt, db.work[b].work.availableAt;
    x < y || (x == y && c(a) < c(b))
  }

  /** How many candidates of the same tenant come before this one. */
  function TenantRank(db: Tables, r: ClaimRequest, id: Ident): nat
    requires id in db.work
  {
    |set other | other in Candidates(db, r.now) &&
                 db.work[other].work.tenantID == db.work[id].work.tenantID && Sooner(db, r.collation, other, id)|
  }

  /** Tenant rank first, then availability and collation. */
  predicate Precedes(db: Tables, r: ClaimRequest, a: Ident, b: Ident)
    requires a in db.work && b in db.work
  {
    TenantRank(db, r, a) < TenantRank(db, r, b) ||
    (TenantRank(db, r, a) == TenantRank(db, r, b) && Sooner(db, r.collation, a, b))
  }

  /** The first `limit` candidates in precedence order. */
  function Chosen(db: Tables, r: ClaimRequest): set<Ident> {
    set id | id in Candidates(db, r.now) &&
             |set other | other in Candidates(db, r.now) && Precedes(db, r, other, id)| < r.limit
  }

  function ClaimedRow(row: WorkRow, r: ClaimRequest): WorkRow {
    row.(state := WorkLeased, attempts := row.attempts + 1, owner := r.owner, token := row.token + 1,
         expiresAt := Min(r.now + r.duration, row.work.deadline))
  }

  /** A claim statement fails as a whole when a counter would leave its column's range. */
  predicate ClaimFits(db: Tables, r: ClaimRequest) {
    forall id | id in Chosen(db, r) :: db.work[id].attempts < MAX_INT32 && db.work[id].token < MAX_INT64
  }

  function Claim(db: Tables, r: ClaimRequest): Tables {
    if !ClaimFits(db, r) then db
    else db.(work := map id | id in db.work ::
               if id in Chosen(db, r) then ClaimedRow(db.work[id], r) else db.work[id])
  }

  /** The lease a claimed or renewed row is returned as. */
  function LeaseOf(row: WorkRow, at: Time): Option<WorkLease> {
    if row.token <= MAX_UINT64 && row.attempts <= MAX_UINT32 then
      Some(WorkLease(row.work, row.owner, row.token, row.attempts, at, row.expiresAt))
    else None
  }

  /** Live ownership: the row is leased to this owner under this token and has not expired. */
  predicate Live(db: Tables, workID: Ident, owner: Ident, token: nat, now: Time) {
    workID in db.work && db.work[workID].state.WorkLeased? && db.work[workID].owner == owner &&
    db.work[workID].token == token && db.work[workID].expiresAt > now
  }

  datatype Renewal = Renewal(workID: Ident, owner: Ident, token: Uint64, now: Time, extendBy: Duration)

  predicate ValidRenewal(r: Renewal) {
    ValidIdent(r.workID) && ValidIdent(r.owner) && r.token > 0 && r.now > ZERO_TIME && 0 < r.extendBy <= MAX_LEASE
  }

  predicate Renewable(db: Tables, r: Renewal) {
    Live(db, r.workID, r.owner, r.token, r.now) && db.work[r.workID].work.deadline > r.now
  }

  function Renew(db: Tables, r: Renewal): Tables {
    if !Renewable(db, r) then db
    else
      var row := db.work[r.workID];
      db.(work := db.work[r.workID := row.(expiresAt := Min(r.now + r.extendBy, row.work.deadline))])
  }

  datatype Completed = Completed(workID: Ident, owner: Ident, token: Uint64, at: Time)

  function Complete(db: Tables, c: Completed): Tables {
    if !Live(db, c.workID, c.owner, c.token, c.at) then db
    else db.(work := db.work[c.workID := db.work[c.workID].(
               state := WorkFinished, completedAt := c.at, owner := NO_IDENT, expiresAt := ZERO_TIME)])
  }

  /** A known failure; a retry time distinguishes release from dead-lettering. */
  datatype WorkFailure = WorkFailure(
    workID: Ident, owner: Ident, token: Uint64, at: Time, code: string, retryAt: Option<Time>)

  predicate ValidFailure(f: WorkFailure) {
    && ValidIdent(f.workID) && ValidIdent(f.owner) && f.token > 0 && f.at > ZERO_TIME && StableName(f.code)
    && (f.retryAt.Some? ==> f.retryAt.value > f.at)
  }

  function Fail(db: Tables, f: WorkFailure): Tables {
    if !Live(db, f.workID, f.owner, f.token, f.at) then db
    else
      var row := db.work[f.workID].(failureCode := f.code, owner := NO_IDENT, expiresAt := ZERO_TIME);
      db.(work := db.work[f.workID :=
            if f.retryAt.Some? then row.(state := WorkDue, work := row.work.(availableAt := f.retryAt.value))
            else row.(state := WorkDeadLettered, completedAt := f.at)])
  }

  // --- dead letters -------------------------------------------------------

  predicate FenceResolved(db: Tables, workID: Ident, token: nat) {
    exists command | command in db.resolutions ::
      db.resolutions[command].workID == workID && db.resolutions[command].token == token
  }

  /** Items the dead-letter list shows. */
  function Listed(db: Tables): set<Ident> {
    set id | id in db.work && db.work[id].state.WorkDeadLettered? && db.work[id].completedAt != ZERO_TIME &&
             !FenceResolved(db, id, db.work[id].token)
  }

  function ResolveFailure(db: Tables, r: Resolution): Option<Error> {
    if r.commandID in db.resolutions then
      if db.resolutions[r.commandID] == r then None else Some(StoreConflict)
    else if r.workID !in db.work || !db.work[r.workID].state.WorkDeadLettered? || db.work[r.workID].token != r.token then
      Some(StaleWorkLease)
    else if FenceResolved(db, r.workID, r.token) then Some(StoreConflict)
    else None
  }

  function Resolve(db: Tables, r: Resolution): Tables {
    if ResolveFailure(db, r).Some? || r.commandID in db.resolutions then db
    else
      var row := db.work[r.workID];
      db.(resolutions := db.resolutions[r.commandID := r],
          work := if r.action.DeadLetterDiscard? then db.work
                  else db.work[r.workID := row.(
                         state := WorkDue, work := row.work.(availableAt := r.retryAt, deadline := r.deadline),
                         failureCode := "", completedAt := ZERO_TIME, owner := NO_IDENT, expiresAt := ZERO_TIME)])
  }

  // --- runs ---------------------------------------------------------------

  datatype Op =
    | DoCommit(t: Transition)
    | DoClaim(claim: ClaimRequest)
    | DoRenew(renewal: Renewal)
    | DoComplete(completed: Completed)
    | DoFail(failure: WorkFailure)
    | DoResolve(resolution: Resolution)

  /** What the store's constructors guarantee about their arguments. */
  predicate ValidOp(op: Op) {
    match op
    case DoCommit(t) =>
      ValidTransition(t) && ValidEvents(t.events) && forall k | 0 <= k < |t.work| :: ValidWork(t.work[k])
    case DoClaim(r) => ValidClaim(r)
    case DoRenew(r) => ValidRenewal(r)
    case DoComplete(c) => ValidIdent(c.workID) && ValidIdent(c.owner) && c.token > 0 && c.at > ZERO_TIME
    case DoFail(f) => ValidFailure(f)
    case DoResolve(r) => ValidResolution(r)
  }

  function Perform(db: Tables, op: Op): Tables
    requires ValidOp(op)
  {
    match op
    case DoCommit(t) => Commit(db, t)
    case DoClaim(r) => Claim(db, r)
    case DoRenew(r) => Renew(db, r)
    case DoComplete(c) => Complete(db, c)
    case DoFail(f) => Fail(db, f)
    case DoResolve(r) => Resolve(db, r)
  }

  predicate ValidOps(ops: seq<Op>) {
    forall k | 0 <= k < |ops| :: ValidOp(ops[k])
  }

  /** Tables after a run of operations, each atomic. */
  function PerformAll(db: Tables, ops: seq<Op>): Tables
    requires ValidOps(ops)
  {
    if ops == [] then db else Perform(PerformAll(db, ops[..|ops| - 1]), ops[|ops| - 1])
  }
}
