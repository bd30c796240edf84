/**
 * Reading an instance back: forward pages, each an atomic read of a store that
 * other writers keep extending between the reads.
 */
module Inspection {
  import opened Basics
  import opened Definitions
  import opened Events
  import opened Replay
  import opened Store
  import opened StoreInvariants
  import opened StoreRuns
  import StoreTheorems
  import ReplayMachine
  import ReplayTheorems

  const MAX_PAGE: int := 1_000
  const MAX_INSPECTION: int := 100_000

  datatype Query = Query(instanceID: Ident, after: Uint64, limit: Uint32)

  predicate ValidQuery(q: Query) {
    ValidIdent(q.instanceID) && 0 < q.limit <= MAX_PAGE && q.after != MAX_UINT64
  }

  datatype Page = Page(events: seq<HistoryEvent>, next: Uint64, hasMore: bool)

  /** Events directly after the cursor, no more than asked for, and full when more follow. */
  predicate ValidPage(q: Query, events: seq<HistoryEvent>, hasMore: bool) {
    && ValidQuery(q) && |events| <= q.limit && (hasMore ==> |events| == q.limit)
    && forall k | 0 <= k < |events| ::
         ValidEvent(events[k]) && events[k].instanceID == q.instanceID && events[k].sequence == q.after + k + 1
  }

  /** Validates adapter output while advancing the cursor. */
  method NewHistoryPage(q: Query, events: seq<HistoryEvent>, hasMore: bool) returns (page: Result<Page>)
    ensures page.Ok? <==> ValidPage(q, events, hasMore)
    ensures page.Ok? ==>
              && page.value.events == events && page.value.hasMore == hasMore
              && page.value.next == if events == [] then q.after else events[|events| - 1].sequence
    ensures page.Err? ==> page.error == InvalidStoreRequest
  {
    hide ValidEvent;
    if !ValidQuery(q) || |events| > q.limit || (hasMore && |events| != q.limit) {
      return Err(InvalidStoreRequest);
    }
    var next := q.after;
    for n := 0 to |events|
      invariant forall k | 0 <= k < n ::
                  ValidEvent(events[k]) && events[k].instanceID == q.instanceID && events[k].sequence == q.after + k + 1
      invariant next == if n == 0 then q.after else events[n - 1].sequence
    {
      if !ValidEvent(events[n]) || events[n].instanceID != q.instanceID || events[n].sequence != q.after + n + 1 {
        return Err(InvalidStoreRequest);
      }
      next := events[n].sequence;
    }
    page := Ok(Page(events, next, hasMore));
  }

  /** One atomic read: the rows after the cursor, one more than the limit to see whether more follow. */
  function ReadPage(db: Tables, q: Query): Result<(seq<HistoryEvent>, bool)> {
    if q.instanceID !in db.instances then Err(StoreNotFound)
    else
      var h := HistoryOf(db, q.instanceID);
      var from := Min(q.after, |h|);
      var upTo := Min(from + q.limit, |h|);
      Ok((h[from..upTo], upTo < |h|))
  }

  /** Reads happen at successive states of a store nobody ever rolls back. */
  ghost predicate Evolves(states: nat -> Tables) {
    && (forall n: nat :: StoreOk(states(n)))
    && (forall n: nat :: Extends(states(n), states(n + 1)))
  }

  predicate ValidTraversal(id: Ident, pageSize: Uint32, maxEvents: Uint32) {
    ValidIdent(id) && 0 < pageSize <= MAX_PAGE && 0 < maxEvents <= MAX_INSPECTION
  }

  /** Histories only ever grow at the end. */
  lemma HistoryGrows(a: Tables, b: Tables, id: Ident)
    requires StoreOk(a) && StoreOk(b) && Extends(a, b) && id in a.instances
    ensures id in b.instances && HistoryOf(a, id) <= HistoryOf(b, id)
  {
    hide StoreOk, WorkExtends, HistoryUpTo;
    StoreTheorems.StoredHistoryValid(a, id);
    StoreTheorems.StoredHistoryValid(b, id);
    forall k | 0 <= k < |HistoryOf(a, id)| ensures HistoryOf(a, id)[k] == HistoryOf(b, id)[k] {
      var e := HistoryOf(a, id)[k];
      assert EventKey(id, k + 1) in a.history;
    }
  }

  lemma PageIsValid(db: Tables, q: Query)
    requires StoreOk(db) && ValidQuery(q) && q.instanceID in db.instances && q.after <= |HistoryOf(db, q.instanceID)|
    ensures ReadPage(db, q).Ok? && ValidPage(q, ReadPage(db, q).value.0, ReadPage(db, q).value.1)
  {
    hide StoreOk, HistoryUpTo, ValidEvent;
    StoreTheorems.StoredHistoryValid(db, q.instanceID);
    StoredPositions(db, q.instanceID);
  }

  lemma StoredPositions(db: Tables, id: Ident)
    requires StoreOk(db) && id in db.instances
    ensures forall k | 0 <= k < |HistoryOf(db, id)| ::
              HistoryOf(db, id)[k].sequence == k + 1 && HistoryOf(db, id)[k].instanceID == id
  {
    hide HistoryFull, RowsAgree, PlansStored, Tiled, WorkOk, WorkAnchored, ResolutionsOk, ValidEvent;
    StoreTheorems.StoredHistoryValid(db, id);
    forall k | 0 <= k < |HistoryOf(db, id)|
      ensures HistoryOf(db, id)[k].sequence == k + 1 && HistoryOf(db, id)[k].instanceID == id
    {
      var e := HistoryOf(db, id)[k];
      assert EventKey(id, k + 1) in db.history;
    }
  }

  /**
   * The paging loop. Whatever is committed between its reads and whatever the
   * page size, success returns exactly the history as of its last read, and the
   * remaining event budget shrinks with every further page.
   */
  method TraverseHistory(states: nat -> Tables, id: Ident, pageSize: Uint32, maxEvents: Uint32)
    returns (result: Result<seq<HistoryEvent>>, last: nat)
    requires Evolves(states) && ValidTraversal(id, pageSize, maxEvents)
    ensures result.Ok? ==>
              id in states(last).instances && result.value == HistoryOf(states(last), id) && |result.value| <= maxEvents
    ensures result.Err? ==>
              (result.error == StoreNotFound && last == 0 && id !in states(0).instances)
              || (result.error == HistoryLimitExceeded && |HistoryOf(states(last), id)| > maxEvents)
  {
    hide StoreOk, Extends, HistoryOf, ValidPage;
    var events: seq<HistoryEvent> := [];
    var after: Uint64, count: Uint64 := 0, 0;
    last := 0;
    while true
      invariant count == after == |events| < maxEvents
      invariant last > 0 ==> id in states(last).instances && events <= HistoryOf(states(last), id)
      invariant last == 0 ==> events == []
      decreases maxEvents - count
    {
      var remaining := maxEvents - count;
      var limit := Min(pageSize, remaining);
      var q := Query(id, after, limit);
      var read := ReadPage(states(last), q);
      if read.Err? {
        return Err(read.error), last;
      }
      PageIsValid(states(last), q);
      var page := NewHistoryPage(q, read.value.0, read.value.1);
      PageAppends(states(last), q, events);
      var pageEvents, more := page.value.events, page.value.hasMore;
      if |pageEvents| == 0 {
        return Ok(events), last;
      }
      events := events + pageEvents;
      PageCursor(q, pageEvents, more);
      count := count + |pageEvents|;
      after := page.value.next;
      if !more {
        return Ok(events), last;
      }
      if count == maxEvents {
        return Err(HistoryLimitExceeded), last;
      }
      assert Extends(states(last), states(last + 1));
      HistoryGrows(states(last), states(last + 1), id);
      last := last + 1;
    }
  }

  lemma PageCursor(q: Query, events: seq<HistoryEvent>, hasMore: bool)
    requires ValidPage(q, events, hasMore) && events != []
    ensures events[|events| - 1].sequence == q.after + |events| && |events| <= q.limit
  {
    hide ValidEvent;
  }

  /** A page read at the collected prefix continues it, and ends it exactly when nothing more follows. */
  lemma PageAppends(db: Tables, q: Query, events: seq<HistoryEvent>)
    requires q.instanceID in db.instances && events <= HistoryOf(db, q.instanceID) && q.after == |events| && q.limit > 0
    ensures var read := ReadPage(db, q).value;
            && events + read.0 <= HistoryOf(db, q.instanceID)
            && (read.1 <==> |events + read.0| < |HistoryOf(db, q.instanceID)|)
            && (!read.1 ==> events + read.0 == HistoryOf(db, q.instanceID))
            && (read.0 == [] ==> events == HistoryOf(db, q.instanceID))
  {
    var h := HistoryOf(db, q.instanceID);
    var upTo := Min(|events| + q.limit, |h|);
    assert h[..|events|] == events;
    assert events + h[|events|..upTo] == h[..upTo];
  }

  /** A history read back whole is never cut inside an audited command. */
  lemma NeverCutInsideAudit(registry: Registry, db: Tables, id: Ident)
    requires StoreOk(db) && id in db.instances && ReplayHistory(registry, HistoryOf(db, id)).Ok?
    ensures var h := HistoryOf(db, id);
            h != [] && ReplayTheorems.AuditsPaired(h) && !h[|h| - 1].kind.OperatorCommandRecorded?
  {
    hide StoreOk, ReplayTheorems.AuditsPaired, HistoryUpTo;
    StoreTheorems.StoredHistoryValid(db, id);
    ReplayTheorems.AuditLaw(registry, HistoryOf(db, id));
  }

  /** Reads a history and replays it. */
  method InspectInstance(states: nat -> Tables, registry: Registry, id: Ident, pageSize: Uint32, maxEvents: Uint32)
    returns (result: Result<Instance>, last: nat)
    requires ValidRegistry(registry) && Evolves(states)
    ensures !ValidTraversal(id, pageSize, maxEvents) ==> result == Err(InvalidStoreRequest)
    ensures ValidTraversal(id, pageSize, maxEvents) ==>
              || (last == 0 && id !in states(0).instances && result == Err(StoreNotFound))
              || (|HistoryOf(states(last), id)| > maxEvents && result == Err(HistoryLimitExceeded))
              || (id in states(last).instances && result == ReplayHistory(registry, HistoryOf(states(last), id)))
  {
    hide ValidRegistry, StoreOk, Extends, HistoryUpTo, ReplayHistory;
    last := 0;
    if !ValidTraversal(id, pageSize, maxEvents) {
      return Err(InvalidStoreRequest), 0;
    }
    var events;
    events, last := TraverseHistory(states, id, pageSize, maxEvents);
    if events.Err? {
      return Err(events.error), last;
    }
    StoreTheorems.StoredHistoryValid(states(last), id);
    result := ReplayMachine.ReplayEvents(registry, events.value);
  }
}
