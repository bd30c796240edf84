/** What every reachable state of the store satisfies, and what no operation can undo. */
module StoreInvariants {
  import opened Basics
  import opened Events
  import opened Transitions
  import opened Store
  import F = ReplayFrames

  // --- inserting a batch --------------------------------------------------

  /** The events are stored one after the other from position `first`. */
  predicate StoredAt(history: map<EventKey, HistoryEvent>, id: Ident, first: nat, events: seq<HistoryEvent>) {
    forall s: nat | first <= s < first + |events| ::
      EventKey(id, s) in history && history[EventKey(id, s)] == events[s - first]
  }

  /** Everything stored before is still stored unchanged. */
  predicate Kept(before: map<EventKey, HistoryEvent>, after: map<EventKey, HistoryEvent>) {
    forall key | key in before :: key in after && after[key] == before[key]
  }

  /** The positions a batch fills. */
  predicate InRange(key: EventKey, id: Ident, first: nat, n: nat) {
    key.instanceID == id && first <= key.sequence < first + n
  }

  lemma {:induction false} WithEventsKeys(history: map<EventKey, HistoryEvent>, id: Ident, events: seq<HistoryEvent>,
                                          first: nat)
    requires ContiguousFrom(events, id, first)
    ensures forall key :: key in WithEvents(history, id, events) <==> key in history || InRange(key, id, first, |events|)
  {
    if events != [] {
      var init, last := events[..|events| - 1], events[|events| - 1];
      assert forall k | 0 <= k < |init| :: init[k] == events[k];
      WithEventsKeys(history, id, init, first);
      assert last.sequence == first + |init|;
    }
  }

  lemma {:induction false} WithEventsAt(history: map<EventKey, HistoryEvent>, id: Ident, events: seq<HistoryEvent>,
                                        first: nat)
    requires ContiguousFrom(events, id, first)
    requires forall key | key in history :: !InRange(key, id, first, |events|)
    ensures StoredAt(WithEvents(history, id, events), id, first, events)
    ensures Kept(history, WithEvents(history, id, events))
  {
    if events != [] {
      var init, last := events[..|events| - 1], events[|events| - 1];
      assert forall k | 0 <= k < |init| :: init[k] == events[k];
      WithEventsAt(history, id, init, first);
      assert last.sequence == first + |init|;
    }
  }

  predicate Creates(items: seq<PendingWork>, id: Ident) {
    exists k | 0 <= k < |items| :: items[k].id == id
  }

  lemma CreatesSnoc(items: seq<PendingWork>, id: Ident)
    requires items != []
    ensures Creates(items, id) <==> Creates(items[..|items| - 1], id) || items[|items| - 1].id == id
  {
    if k :| 0 <= k < |items| && items[k].id == id {
      assert k < |items| - 1 ==> items[..|items| - 1][k].id == id;
    }
  }

  lemma {:induction false} WithWorkAt(work: map<Ident, WorkRow>, items: seq<PendingWork>)
    requires DistinctWork(items)
    ensures forall id :: id in WithWork(work, items) <==> id in work || Creates(items, id)
    ensures forall k | 0 <= k < |items| ::
              items[k].id in WithWork(work, items) && WithWork(work, items)[items[k].id] == NewRow(items[k])
    ensures forall id | id in work && !Creates(items, id) :: WithWork(work, items)[id] == work[id]
  {
    hide Creates;
    if items == [] {
      forall id ensures !Creates(items, id) {
        NothingCreated(id);
      }
    } else {
      var init, last := items[..|items| - 1], items[|items| - 1];
      assert forall k | 0 <= k < |init| :: init[k] == items[k];
      WithWorkAt(work, init);
      forall id ensures Creates(items, id) <==> Creates(init, id) || last.id == id {
        CreatesSnoc(items, id);
      }
      forall k | 0 <= k < |items|
        ensures items[k].id in WithWork(work, items) && WithWork(work, items)[items[k].id] == NewRow(items[k])
      {
        if k < |init| {
          ItCreates(init, k);
        }
      }
    }
  }

  lemma NothingCreated(id: Ident)
    ensures !Creates([], id)
  {
  }

  lemma ItCreates(items: seq<PendingWork>, k: nat)
    requires k < |items|
    ensures Creates(items, items[k].id)
  {
  }

  /** Stored prefixes only depend on the keys they read. */
  lemma {:induction false} SamePrefix(a: map<EventKey, HistoryEvent>, b: map<EventKey, HistoryEvent>, id: Ident, n: nat)
    requires forall s | 1 <= s <= n :: EventKey(id, s) in a && EventKey(id, s) in b && a[EventKey(id, s)] == b[EventKey(id, s)]
    ensures HistoryUpTo(a, id, n) == HistoryUpTo(b, id, n)
  {
    if n > 0 {
      SamePrefix(a, b, id, n - 1);
    }
  }

  lemma {:induction false} FullPrefix(history: map<EventKey, HistoryEvent>, id: Ident, n: nat)
    requires forall s | 1 <= s <= n :: EventKey(id, s) in history
    ensures |HistoryUpTo(history, id, n)| == n
    ensures forall k | 0 <= k < n :: HistoryUpTo(history, id, n)[k] == history[EventKey(id, k + 1)]
  {
    if n > 0 {
      FullPrefix(history, id, n - 1);
    }
  }

  /** A batch appended to the stored events extends the ordered history by exactly the batch. */
  lemma {:induction false} AppendedHistory(history: map<EventKey, HistoryEvent>, later: map<EventKey, HistoryEvent>,
                                           id: Ident, n: nat, events: seq<HistoryEvent>, k: nat)
    requires k <= |events|
    requires Full(history, id, n) && Kept(history, later) && StoredAt(later, id, n + 1, events)
    ensures HistoryUpTo(later, id, n + k) == HistoryUpTo(history, id, n) + events[..k]
    decreases k
  {
    if k == 0 {
      SamePrefix(history, later, id, n);
      assert events[..0] == [];
    } else {
      AppendedHistory(history, later, id, n, events, k - 1);
      assert events[..k] == events[..k - 1] + [events[k - 1]];
    }
  }

  // --- history, rows and plans --------------------------------------------

  /** Every stored event sits at its own position of an existing instance. */
  predicate HistoryKeyed(db: Tables) {
    forall key | key in db.history ::
      && key.instanceID in db.instances && 1 <= key.sequence <= db.instances[key.instanceID].sequence
      && db.history[key].sequence == key.sequence && db.history[key].instanceID == key.instanceID
      && ValidEvent(db.history[key])
  }

  /** Positions one up to the row's sequence are all stored. */
  predicate HistoryFull(db: Tables) {
    forall id | id in db.instances ::
      1 <= db.instances[id].sequence <= MAX_STORED_SEQUENCE && Full(db.history, id, db.instances[id].sequence)
  }

  predicate Full(history: map<EventKey, HistoryEvent>, id: Ident, n: nat) {
    forall s | 1 <= s <= n :: EventKey(id, s) in history
  }

  /** Archival against the history: set once a batch ended terminally, and only by a terminal event. */
  predicate Archival(archivedAt: Option<Time>, h: seq<HistoryEvent>)
    requires h != []
  {
    && (IsTerminalEvent(h[|h| - 1].kind) ==> archivedAt.Some?)
    && (archivedAt.Some? ==>
          exists k | 0 <= k < |h| :: IsTerminalEvent(h[k].kind) && h[k].occurredAt == archivedAt.value)
  }

  predicate RowAgrees(row: InstanceRow, h: seq<HistoryEvent>) {
    && h != [] && row.definition == F.PinnedDefinition(h) && row.createdAt == h[0].occurredAt
    && row.updatedAt == h[|h| - 1].occurredAt && Archival(row.archivedAt, h)
  }

  predicate RowsAgree(db: Tables) {
    forall id | id in db.instances :: RowAgrees(db.instances[id], HistoryOf(db, id))
  }

  predicate Covers(row: TransitionRow, id: Ident, s: nat) {
    row.plan.instanceID == id && row.plan.expectedSequence < s <= row.committedSequence
  }

  /** A plan's events are stored at the positions its row spans. */
  predicate PlanStored(db: Tables, row: TransitionRow) {
    && row.plan.instanceID in db.instances && row.plan.events != []
    && row.committedSequence == row.plan.expectedSequence + |row.plan.events|
    && row.committedAt == LastEvent(row.plan).occurredAt
    && row.committedSequence <= db.instances[row.plan.instanceID].sequence
    && StoredAt(db.history, row.plan.instanceID, row.plan.expectedSequence + 1, row.plan.events)
  }

  predicate PlansStored(db: Tables) {
    forall id | id in db.transitions :: db.transitions[id].plan.id == id && PlanStored(db, db.transitions[id])
  }

  predicate Apart(a: TransitionRow, b: TransitionRow) {
    a.plan.instanceID == b.plan.instanceID ==>
      a.committedSequence <= b.plan.expectedSequence || b.committedSequence <= a.plan.expectedSequence
  }

  /** Durable intervals never overlap and leave no gap. */
  predicate Tiled(db: Tables) {
    && (forall a, b | a in db.transitions && b in db.transitions && a != b ::
          Apart(db.transitions[a], db.transitions[b]))
    && (forall id | id in db.instances :: CoveredUpTo(db.transitions, id, db.instances[id].sequence))
  }

  predicate Covered(transitions: map<Ident, TransitionRow>, id: Ident, s: nat) {
    exists tid | tid in transitions :: Covers(transitions[tid], id, s)
  }

  predicate CoveredUpTo(transitions: map<Ident, TransitionRow>, id: Ident, n: nat) {
    forall s: nat | 1 <= s <= n :: Covered(transitions, id, s)
  }

  predicate HistoryOk(db: Tables) {
    HistoryKeyed(db) && HistoryFull(db) && RowsAgree(db) && PlansStored(db) && Tiled(db)
  }

  // --- work and resolutions -----------------------------------------------

  /** Immutable and state-dependent facts of one work row. */
  predicate WorkRowOk(row: WorkRow) {
    && row.attempts == row.token && row.attempts <= MAX_INT32
    && ValidIdent(row.work.id) && ValidIdent(row.work.instanceID) && row.work.sequence > 0
    && row.work.availableAt != ZERO_TIME && row.work.payload.Size() <= MAX_PAYLOAD_BYTES
    && OptionalMetadata(row.work.tenantID) && OptionalMetadata(row.work.correlationID)
    && (row.state.WorkLeased? ==>
          row.token > 0 && ValidIdent(row.owner) && row.work.availableAt < row.work.deadline &&
          row.expiresAt <= row.work.deadline)
    && (row.state.WorkFinished? || row.state.WorkDeadLettered? ==> row.token > 0 && row.completedAt != ZERO_TIME)
    && (row.state.WorkDeadLettered? ==> StableName(row.failureCode))
    && (!row.state.WorkLeased? ==> row.owner == NO_IDENT && row.expiresAt == ZERO_TIME)
    && (row.state.WorkDue? || row.state.WorkLeased? ==> row.completedAt == ZERO_TIME)
  }

  predicate WorkOk(db: Tables) {
    forall id | id in db.work :: db.work[id].work.id == id && WorkRowOk(db.work[id])
  }

  /** Work belongs to a stored event. */
  predicate WorkAnchored(db: Tables) {
    forall id | id in db.work :: EventKey(db.work[id].work.instanceID, db.work[id].work.sequence) in db.history
  }

  /** Each fence is resolved once, and a discarded fence is still the item's dead-letter fence. */
  predicate ResolutionsOk(db: Tables) {
    && (forall c | c in db.resolutions ::
          db.resolutions[c].commandID == c && db.resolutions[c].workID in db.work &&
          0 < db.resolutions[c].token <= db.work[db.resolutions[c].workID].token)
    && (forall c, d | c in db.resolutions && d in db.resolutions && c != d ::
          db.resolutions[c].workID != db.resolutions[d].workID || db.resolutions[c].token != db.resolutions[d].token)
    && (forall c | c in db.resolutions && db.resolutions[c].action.DeadLetterDiscard? ::
          db.work[db.resolutions[c].workID].state.WorkDeadLettered? &&
          db.work[db.resolutions[c].workID].token == db.resolutions[c].token)
    && (forall c | c in db.resolutions && db.work[db.resolutions[c].workID].token == db.resolutions[c].token ::
          !db.work[db.resolutions[c].workID].state.WorkLeased?)
  }

  predicate StoreOk(db: Tables) {
    HistoryOk(db) && WorkOk(db) && WorkAnchored(db) && ResolutionsOk(db)
  }

  // --- commits ------------------------------------------------------------

  /** Shape of a commit that is applied. */
  predicate Applicable(db: Tables, t: Transition) {
    ValidTransition(t) && ValidEvents(t.events) && StageOutcomeOf(db, t).Applied?
  }

  lemma StagedShape(db: Tables, t: Transition)
    requires HistoryKeyed(db) && HistoryFull(db) && Applicable(db, t)
    ensures t.events != [] && StageFailure(db, t).None? && t.id !in db.transitions
    ensures t.instanceID in db.instances <==> t.expectedSequence != 0
    ensures t.instanceID in db.instances ==>
              db.instances[t.instanceID].sequence == t.expectedSequence && db.instances[t.instanceID].definition == t.definition
    ensures LastEvent(t).sequence == t.expectedSequence + |t.events| <= MAX_STORED_SEQUENCE
    ensures ContiguousFrom(t.events, t.instanceID, t.expectedSequence + 1)
    ensures Full(db.history, t.instanceID, t.expectedSequence)
    ensures forall key | key in db.history && key.instanceID == t.instanceID :: key.sequence <= t.expectedSequence
  {
    hide ValidEvent, TimesOrdered, Anchored, DistinctWork, StartsRight;
  }

  /** What inserting the batch does to the stored events. */
  lemma StagedLookup(db: Tables, t: Transition)
    requires HistoryKeyed(db) && HistoryFull(db) && Applicable(db, t)
    ensures StageFailure(db, t).None?
    ensures Kept(db.history, Staged(db, t).history)
    ensures StoredAt(Staged(db, t).history, t.instanceID, t.expectedSequence + 1, t.events)
    ensures forall key | key in Staged(db, t).history ::
              key in db.history ||
              (key.instanceID == t.instanceID && t.expectedSequence < key.sequence <= t.expectedSequence + |t.events|)
  {
    hide HistoryFull, HistoryKeyed, StageOutcomeOf, ValidTransition, StagedInstance, ContiguousFrom, WithEvents;
    StagedShape(db, t);
    WithEventsKeys(db.history, t.instanceID, t.events, t.expectedSequence + 1);
    WithEventsAt(db.history, t.instanceID, t.events, t.expectedSequence + 1);
  }

  lemma StagedKeyed(db: Tables, t: Transition)
    requires HistoryKeyed(db) && HistoryFull(db) && Applicable(db, t)
    ensures StageFailure(db, t).None? && HistoryKeyed(Staged(db, t))
  {
    hide ValidEvent, HistoryFull, StageFailure, StageOutcomeOf, ValidTransition, WithEvents, WithWork;
    StagedShape(db, t);
    StagedLookup(db, t);
    var later := Staged(db, t);
    forall key | key in later.history
      ensures key.instanceID in later.instances && 1 <= key.sequence <= later.instances[key.instanceID].sequence
      ensures later.history[key].sequence == key.sequence && later.history[key].instanceID == key.instanceID
      ensures ValidEvent(later.history[key])
    {
    }
  }

  lemma StagedFull(db: Tables, t: Transition)
    requires HistoryKeyed(db) && HistoryFull(db) && Applicable(db, t)
    ensures StageFailure(db, t).None? && HistoryFull(Staged(db, t))
  {
    hide HistoryKeyed, StageFailure, StageOutcomeOf, ValidTransition, WithEvents, WithWork;
    StagedShape(db, t);
    StagedLookup(db, t);
    var later := Staged(db, t);
    forall s | 1 <= s <= t.expectedSequence + |t.events| ensures EventKey(t.instanceID, s) in later.history {
    }
    forall id | id in db.instances && id != t.instanceID ensures Full(later.history, id, db.instances[id].sequence) {
      assert Full(db.history, id, db.instances[id].sequence);
    }
  }

  /** The batch is appended to its own instance's history and to no other. */
  lemma StagedHistory(db: Tables, t: Transition)
    requires HistoryKeyed(db) && HistoryFull(db) && Applicable(db, t)
    ensures StageFailure(db, t).None? && t.events != []
    ensures HistoryOf(Staged(db, t), t.instanceID) == HistoryOf(db, t.instanceID) + t.events
  {
    hide HistoryKeyed, HistoryFull, StageFailure, StageOutcomeOf, ValidTransition, WithEvents, WithWork, Full, StoredAt,
         Kept, ContiguousFrom;
    StagedShape(db, t);
    StagedLookup(db, t);
    AppendedHistory(db.history, Staged(db, t).history, t.instanceID, t.expectedSequence, t.events, |t.events|);
    assert t.events[..|t.events|] == t.events;
    assert HistoryUpTo(db.history, t.instanceID, 0) == [];
  }

  lemma OtherHistories(db: Tables, t: Transition, id: Ident)
    requires HistoryKeyed(db) && HistoryFull(db) && Applicable(db, t)
    requires id in db.instances && id != t.instanceID
    ensures StageFailure(db, t).None? && t.events != []
    ensures HistoryOf(Staged(db, t), id) == HistoryOf(db, id)
  {
    hide HistoryKeyed, StageFailure, StageOutcomeOf, ValidTransition, WithEvents, WithWork, StoredAt;
    StagedShape(db, t);
    StagedLookup(db, t);
    assert Full(db.history, id, db.instances[id].sequence);
    SamePrefix(db.history, Staged(db, t).history, id, db.instances[id].sequence);
  }

  // --- pins and rows ------------------------------------------------------

  lemma {:induction false} PinnedConcat(h: seq<HistoryEvent>, events: seq<HistoryEvent>)
    requires h != []
    ensures F.PinnedDefinition(h + events) == NextPin(F.PinnedDefinition(h), events)
  {
    if events == [] {
      assert h + events == h;
    } else {
      var init := events[..|events| - 1];
      PinnedConcat(h, init);
      assert (h + events)[..|h + events| - 1] == h + init;
    }
  }

  lemma {:induction false} PinnedFirst(events: seq<HistoryEvent>)
    requires events != [] && IsStart(events[0].kind)
    ensures F.PinnedDefinition(events) == NextPin(events[0].definition, events)
  {
    var init := events[..|events| - 1];
    if init != [] {
      PinnedFirst(init);
    }
  }

  lemma ArchivalGrows(before: Option<Time>, h: seq<HistoryEvent>, events: seq<HistoryEvent>)
    requires events != [] && (if h == [] then before.None? else Archival(before, h))
    ensures var last := events[|events| - 1];
            Archival(if before.Some? then before
                     else if IsTerminalEvent(last.kind) then Some(last.occurredAt)
                     else None, h + events)
  {
    hide IsTerminalEvent;
    var all := h + events;
    assert all[|all| - 1] == events[|events| - 1];
    if before.Some? {
      var k :| 0 <= k < |h| && IsTerminalEvent(h[k].kind) && h[k].occurredAt == before.value;
      assert all[k] == h[k];
    }
  }

  lemma StagedRow(db: Tables, t: Transition)
    requires HistoryKeyed(db) && HistoryFull(db) && RowsAgree(db) && Applicable(db, t)
    ensures RowAgrees(StagedInstance(db, t), HistoryOf(db, t.instanceID) + t.events)
  {
    hide ValidEvent, StageFailure, StageOutcomeOf, Archival, HistoryUpTo;
    StagedShape(db, t);
    var h := HistoryOf(db, t.instanceID);
    if t.expectedSequence == 0 {
      assert h == [];
      assert h + t.events == t.events;
      PinnedFirst(t.events);
      ArchivalGrows(None, h, t.events);
    } else {
      assert RowAgrees(db.instances[t.instanceID], h);
      PinnedConcat(h, t.events);
      ArchivalGrows(db.instances[t.instanceID].archivedAt, h, t.events);
    }
  }

  lemma StagedRowsAgree(db: Tables, t: Transition)
    requires HistoryKeyed(db) && HistoryFull(db) && RowsAgree(db) && Applicable(db, t)
    ensures StageFailure(db, t).None? && RowsAgree(Staged(db, t))
  {
    hide HistoryKeyed, HistoryFull, StageFailure, StageOutcomeOf, ValidTransition, RowAgrees, HistoryOf, StagedInstance;
    StagedShape(db, t);
    StagedHistory(db, t);
    StagedRow(db, t);
    forall id | id in Staged(db, t).instances
      ensures RowAgrees(Staged(db, t).instances[id], HistoryOf(Staged(db, t), id))
    {
      if id != t.instanceID {
        OtherHistories(db, t, id);
        assert RowAgrees(db.instances[id], HistoryOf(db, id));
      }
    }
  }

  lemma StagedPlansStored(db: Tables, t: Transition)
    requires HistoryKeyed(db) && HistoryFull(db) && PlansStored(db) && Applicable(db, t)
    ensures StageFailure(db, t).None? && PlansStored(Staged(db, t))
  {
    hide HistoryKeyed, HistoryFull, StageFailure, StageOutcomeOf, ValidTransition, WithEvents, WithWork;
    StagedShape(db, t);
    StagedLookup(db, t);
    var later := Staged(db, t);
    forall id | id in db.transitions && id != t.id ensures PlanStored(later, db.transitions[id]) {
      StillStored(db, later, db.transitions[id]);
    }
  }

  lemma StillStored(db: Tables, later: Tables, row: TransitionRow)
    requires PlanStored(db, row) && Kept(db.history, later.history)
    requires row.plan.instanceID in later.instances
    requires later.instances[row.plan.instanceID].sequence >= db.instances[row.plan.instanceID].sequence
    ensures PlanStored(later, row)
  {
  }

  lemma StagedTiled(db: Tables, t: Transition)
    requires HistoryKeyed(db) && HistoryFull(db) && PlansStored(db) && Tiled(db) && Applicable(db, t)
    ensures StageFailure(db, t).None? && Tiled(Staged(db, t))
  {
    hide HistoryKeyed, HistoryFull, StageFailure, StageOutcomeOf, ValidTransition, WithEvents, WithWork, StoredAt;
    StagedShape(db, t);
    var later := Staged(db, t);
    var row := later.transitions[t.id];
    forall id | id in db.transitions ensures Apart(db.transitions[id], row) && Apart(row, db.transitions[id]) {
      assert PlanStored(db, db.transitions[id]);
    }
    forall id | id in later.instances
      ensures CoveredUpTo(later.transitions, id, later.instances[id].sequence)
    {
      forall s: nat | 1 <= s <= later.instances[id].sequence ensures Covered(later.transitions, id, s) {
        if id == t.instanceID && s > t.expectedSequence {
          assert Covers(later.transitions[t.id], id, s);
        } else {
          assert CoveredUpTo(db.transitions, id, db.instances[id].sequence);
          assert Covered(db.transitions, id, s);
          var tid :| tid in db.transitions && Covers(db.transitions[tid], id, s);
          assert Covers(later.transitions[tid], id, s);
        }
      }
    }
  }

  lemma CommitKeepsHistory(db: Tables, t: Transition)
    requires HistoryOk(db) && Applicable(db, t)
    ensures StageFailure(db, t).None? && HistoryOk(Staged(db, t))
  {
    hide HistoryKeyed, HistoryFull, RowsAgree, PlansStored, Tiled, Staged, Applicable, StageFailure;
    StagedKeyed(db, t);
    StagedFull(db, t);
    StagedRowsAgree(db, t);
    StagedPlansStored(db, t);
    StagedTiled(db, t);
  }
}
