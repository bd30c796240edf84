/** Due work, leases and atomic transition plans. */
module Transitions {
  import opened Basics
  import opened Definitions
  import opened Events

  datatype WorkKind =
    | WorkActivity | WorkTimer | WorkChild | WorkPublication | WorkReconciliation | WorkCompensation

  /**
   * Durable work payloads. Encoded dispatch metadata is kept as the document it
   * encodes; other bytes decode as no document.
   */
  datatype Payload =
    | Text(text: string)
    | DispatchDocument(stepName: string, attempt: Uint32, key: Ident)
    | ChildDocument(stepName: string, childID: Ident, definition: DefinitionRef, attempt: Uint32, key: Ident)
  {
    /** Length of the bytes: the text itself, or the encoded document with its fixed field names. */
    function Size(): nat {
      match this
      case Text(text) => |text|
      case DispatchDocument(stepName, attempt, key) => 48 + |stepName| + Digits(attempt) + IdentLength(key)
      case ChildDocument(stepName, childID, definition, attempt, key) =>
        135 + |stepName| + IdentLength(childID) + |definition.name| + |definition.version| + 64 + Digits(attempt) +
        IdentLength(key)
    }

    /** The bytes read as a step name; an encoded document begins with a brace and is no name. */
    function AsName(): string {
      if this.Text? then this.text else "{"
    }
  }

  function Digits(n: nat): (d: nat)
    ensures d >= 1
  {
    if n < 10 then 1 else 1 + Digits(n / 10)
  }

  const MAX_DISPATCH_BYTES: int := 1024
  const MAX_TRANSITION_EVENTS: int := 100
  const MAX_TRANSITION_WORK: int := 1_000
  const MAX_LEASE: int := 15 * 60 * 1_000_000_000

  /** Decodes activity or compensation dispatch metadata. */
  function DecodeDispatch(payload: Payload): (decoded: Option<Payload>)
    ensures decoded.Some? ==> decoded.value == payload && payload.DispatchDocument? && payload.attempt > 0
  {
    if payload.DispatchDocument? && payload.Size() <= MAX_DISPATCH_BYTES && StableName(payload.stepName) &&
       payload.attempt > 0 && ValidIdent(payload.key)
    then Some(payload)
    else None
  }

  function DecodeChildDispatch(payload: Payload): (decoded: Option<Payload>)
    ensures decoded.Some? ==> decoded.value == payload && payload.ChildDocument? && payload.attempt > 0
  {
    if payload.ChildDocument? && payload.Size() <= MAX_DISPATCH_BYTES && ValidReference(payload.definition) &&
       StableName(payload.stepName) && ValidIdent(payload.childID) && payload.attempt > 0 && ValidIdent(payload.key)
    then Some(payload)
    else None
  }

  datatype PendingWork = PendingWork(
    id: Ident, kind: WorkKind, instanceID: Ident, sequence: Uint64, availableAt: Time, deadline: Time,
    payload: Payload, tenantID: Ident, correlationID: Ident)

  predicate ValidWork(w: PendingWork) {
    ValidIdent(w.id) && ValidIdent(w.instanceID) && w.sequence > 0 && w.availableAt != ZERO_TIME &&
    w.deadline > w.availableAt && w.payload.Size() <= MAX_PAYLOAD_BYTES && OptionalMetadata(w.tenantID) &&
    OptionalMetadata(w.correlationID)
  }

  datatype WorkLease = WorkLease(
    work: PendingWork, owner: Ident, token: Uint64, attempt: Uint32, claimedAt: Time, expiresAt: Time)

  predicate ValidLease(l: WorkLease) {
    ValidWork(l.work) && ValidIdent(l.owner) && l.token > 0 && l.attempt > 0 && l.claimedAt != ZERO_TIME &&
    l.claimedAt < l.expiresAt && l.expiresAt - l.claimedAt <= MAX_LEASE && l.expiresAt <= l.work.deadline
  }

  /** One atomic plan. Its fingerprint is represented by its complete content. */
  datatype Transition = Transition(
    id: Ident, instanceID: Ident, expectedSequence: Uint64, definition: DefinitionRef,
    events: seq<HistoryEvent>, work: seq<PendingWork>)

  function EventBytes(events: seq<HistoryEvent>): nat {
    if events == [] then 0 else EventBytes(events[..|events| - 1]) + events[|events| - 1].data.Size()
  }

  function WorkBytes(work: seq<PendingWork>): nat {
    if work == [] then 0 else WorkBytes(work[..|work| - 1]) + work[|work| - 1].payload.Size()
  }

  predicate ContiguousFrom(events: seq<HistoryEvent>, instanceID: Ident, first: int) {
    forall k | 0 <= k < |events| :: events[k].sequence == first + k && events[k].instanceID == instanceID
  }

  predicate TimesOrdered(events: seq<HistoryEvent>) {
    forall k | 0 < k < |events| :: events[k - 1].occurredAt <= events[k].occurredAt
  }

  /** Work is tied to an event of the same plan and becomes due no earlier than it. */
  predicate Anchored(t: Transition, w: PendingWork) {
    w.instanceID == t.instanceID &&
    exists k | 0 <= k < |t.events| :: t.events[k].sequence == w.sequence && w.availableAt >= t.events[k].occurredAt
  }

  predicate DistinctWork(work: seq<PendingWork>) {
    forall i, j | 0 <= i < j < |work| :: work[i].id != work[j].id
  }

  predicate StartsRight(t: Transition)
    requires t.events != []
  {
    if t.expectedSequence == 0 then IsStart(t.events[0].kind) && t.events[0].definition == t.definition
    else !IsStart(t.events[0].kind)
  }

  /** What every constructed transition satisfies. */
  predicate ValidTransition(t: Transition) {
    && ValidIdent(t.id) && ValidIdent(t.instanceID) && ValidReference(t.definition)
    && t.expectedSequence != MAX_UINT64
    && 0 < |t.events| <= MAX_TRANSITION_EVENTS && |t.work| <= MAX_TRANSITION_WORK
    && ContiguousFrom(t.events, t.instanceID, t.expectedSequence + 1) && TimesOrdered(t.events) && StartsRight(t)
    && (forall k | 0 <= k < |t.work| :: Anchored(t, t.work[k])) && DistinctWork(t.work)
    && EventBytes(t.events) + WorkBytes(t.work) <= MAX_PAYLOAD_BYTES
  }

  /** The event loop of plan validation: positions, owner, time order, and what it records. */
  method CheckEvents(t: Transition) returns (ok: bool, times: map<int, Time>, total: nat)
    requires ValidEvents(t.events) && t.expectedSequence < MAX_UINT64
    requires |t.events| <= MAX_TRANSITION_EVENTS
    ensures ok <==> ContiguousFrom(t.events, t.instanceID, t.expectedSequence + 1) && TimesOrdered(t.events)
    ensures ok ==> total == EventBytes(t.events)
    ensures ok ==> RecordsTimes(t, times)
  {
    hide ValidEvent, Wrapped, EventBytes;
    var first := t.expectedSequence + 1;
    var previous := ZERO_TIME;
    times, total := map[], 0;
    NoBytes();
    for n := 0 to |t.events|
      invariant forall k | 0 <= k < n :: t.events[k].sequence == first + k && t.events[k].instanceID == t.instanceID
      invariant forall k | 0 < k < n :: t.events[k - 1].occurredAt <= t.events[k].occurredAt
      invariant n > 0 ==> previous == t.events[n - 1].occurredAt && previous != ZERO_TIME
      invariant n == 0 ==> previous == ZERO_TIME
      invariant total == EventBytes(t.events[..n])
      invariant forall s :: s in times <==> first <= s < first + n
      invariant forall k | 0 <= k < n :: times[first + k] == t.events[k].occurredAt
    {
      var event := t.events[n];
      PositiveSequence(event);
      WrappedPosition(t, n);
      if event.instanceID != t.instanceID || event.sequence != Wrapped(first + n) ||
         (previous != ZERO_TIME && event.occurredAt < previous) {
        return false, times, total;
      }
      previous := event.occurredAt;
      times := times[event.sequence := event.occurredAt];
      BytesGrow(t.events, n);
      total := total + event.data.Size();
    }
    assert t.events[..|t.events|] == t.events;
    ok := true;
  }

  lemma NoBytes()
    ensures EventBytes([]) == 0
  {
  }

  lemma BytesGrow(events: seq<HistoryEvent>, n: nat)
    requires n < |events|
    ensures EventBytes(events[..n + 1]) == EventBytes(events[..n]) + events[n].data.Size()
  {
    assert events[..n + 1][..n] == events[..n];
  }

  /** The recorded times are those of the plan's positions. */
  ghost predicate RecordsTimes(t: Transition, times: map<int, Time>) {
    var first := t.expectedSequence + 1;
    && (forall s :: s in times <==> first <= s < first + |t.events|)
    && (forall k | 0 <= k < |t.events| :: times[first + k] == t.events[k].occurredAt)
  }

  lemma AnchoredByTime(t: Transition, times: map<int, Time>, w: PendingWork)
    requires ContiguousFrom(t.events, t.instanceID, t.expectedSequence + 1) && RecordsTimes(t, times)
    ensures Anchored(t, w) <==>
            w.instanceID == t.instanceID && w.sequence in times && w.availableAt >= times[w.sequence]
  {
    var first := t.expectedSequence + 1;
    if w.sequence in times {
      assert t.events[w.sequence - first].sequence == w.sequence;
      assert times[first + (w.sequence - first)] == t.events[w.sequence - first].occurredAt;
    }
  }

  /** Unsigned 64-bit addition keeps the low bits. */
  function Wrapped(n: nat): Uint64 {
    n % (MAX_UINT64 + 1)
  }

  /** Event positions are positive, so wrapping past the last 64-bit position is refused. */
  lemma WrappedPosition(t: Transition, n: nat)
    requires n < |t.events| && t.events[n].sequence > 0
    requires forall k | 0 <= k < n :: t.events[k].sequence == t.expectedSequence + 1 + k
    requires t.expectedSequence < MAX_UINT64
    ensures t.events[n].sequence == Wrapped(t.expectedSequence + 1 + n) <==>
            t.events[n].sequence == t.expectedSequence + 1 + n
  {
    if n > 0 {
      assert t.events[n - 1].sequence == t.expectedSequence + n;
    }
    assert t.expectedSequence + 1 + n <= MAX_UINT64 + 1;
  }

  /** The work loop of plan validation. */
  method CheckWork(t: Transition, times: map<int, Time>, start: nat) returns (ok: bool, total: nat)
    requires ContiguousFrom(t.events, t.instanceID, t.expectedSequence + 1)
    requires RecordsTimes(t, times)
    ensures ok <==> (forall k | 0 <= k < |t.work| :: Anchored(t, t.work[k])) && DistinctWork(t.work)
    ensures ok ==> total == start + WorkBytes(t.work)
  {
    hide RecordsTimes, Anchored, ContiguousFrom;
    var ids: set<Ident> := {};
    total := start;
    for n := 0 to |t.work|
      invariant ids == set k | 0 <= k < n :: t.work[k].id
      invariant forall k | 0 <= k < n :: Anchored(t, t.work[k])
      invariant forall i, j | 0 <= i < j < n :: t.work[i].id != t.work[j].id
      invariant total == start + WorkBytes(t.work[..n])
    {
      var work := t.work[n];
      assert t.work[..n + 1][..n] == t.work[..n];
      total := total + work.payload.Size();
      AnchoredByTime(t, times, work);
      if work.instanceID != t.instanceID || work.sequence !in times || work.availableAt < times[work.sequence] {
        return false, total;
      }
      if work.id in ids {
        return false, total;
      }
      ids := ids + {work.id};
    }
    assert t.work[..|t.work|] == t.work;
    ok := true;
  }

  /** Builds a plan from its parts, refusing exactly the invalid ones. */
  method NewTransition(t: Transition) returns (result: Result<Transition>)
    requires ValidEvents(t.events)
    ensures result == if ValidTransition(t) then Ok(t) else Err(InvalidPlan)
  {
    if !ValidIdent(t.id) || !ValidIdent(t.instanceID) || !ValidReference(t.definition) ||
       t.expectedSequence == MAX_UINT64 || |t.events| == 0 || |t.events| > MAX_TRANSITION_EVENTS ||
       |t.work| > MAX_TRANSITION_WORK {
      return Err(InvalidPlan);
    }
    var ordered, times, bytes := CheckEvents(t);
    if !ordered {
      return Err(InvalidPlan);
    }
    var first := t.events[0];
    if t.expectedSequence == 0 {
      if !IsStart(first.kind) || first.definition != t.definition {
        return Err(InvalidPlan);
      }
    } else if IsStart(first.kind) {
      return Err(InvalidPlan);
    }
    var anchored, total := CheckWork(t, times, bytes);
    if !anchored || total > MAX_PAYLOAD_BYTES {
      return Err(InvalidPlan);
    }
    result := Ok(t);
  }

  /** The planners' last steps: validate every event, every work item and the plan as a whole. */
  function Plan(id: Ident, instanceID: Ident, expected: Uint64, definition: DefinitionRef, events: seq<HistoryEvent>,
                work: seq<PendingWork>): (plan: Option<Transition>)
    ensures plan.Some? ==>
              && ValidTransition(plan.value) && ValidEvents(plan.value.events)
              && (forall k | 0 <= k < |plan.value.work| :: ValidWork(plan.value.work[k]))
              && plan.value == Transition(id, instanceID, expected, definition, events, work)
  {
    var t := Transition(id, instanceID, expected, definition, events, work);
    if (forall k | 0 <= k < |events| :: ValidEvent(events[k])) && (forall k | 0 <= k < |work| :: ValidWork(work[k])) &&
       ValidTransition(t)
    then Some(t)
    else None
  }

  /** What a valid plan is, spelled out for any two of its parts. */
  lemma ValidPlanMeans(t: Transition)
    requires ValidTransition(t)
    ensures forall k | 0 <= k < |t.events| ::
              t.events[k].sequence == t.expectedSequence + k + 1 && t.events[k].instanceID == t.instanceID
    ensures forall j, k | 0 <= j <= k < |t.events| :: t.events[j].occurredAt <= t.events[k].occurredAt
    ensures forall j, k | 0 <= j < k < |t.work| :: t.work[j].id != t.work[k].id
    ensures forall k | 0 <= k < |t.work| ::
              && t.work[k].instanceID == t.instanceID
              && t.expectedSequence < t.work[k].sequence <= t.expectedSequence + |t.events|
              && t.work[k].availableAt >= t.events[t.work[k].sequence - t.expectedSequence - 1].occurredAt
    ensures t.expectedSequence == 0 <==> IsStart(t.events[0].kind)
  {
    hide ValidIdent, ValidReference;
    forall j, k | 0 <= j <= k < |t.events| ensures t.events[j].occurredAt <= t.events[k].occurredAt {
      OrderedTimes(t.events, j, k);
    }
    forall k | 0 <= k < |t.work|
      ensures t.expectedSequence < t.work[k].sequence <= t.expectedSequence + |t.events|
      ensures t.work[k].availableAt >= t.events[t.work[k].sequence - t.expectedSequence - 1].occurredAt
    {
      assert Anchored(t, t.work[k]);
    }
  }

  lemma {:induction false} OrderedTimes(events: seq<HistoryEvent>, j: nat, k: nat)
    requires TimesOrdered(events) && j <= k < |events|
    ensures events[j].occurredAt <= events[k].occurredAt
  {
    if j < k {
      OrderedTimes(events, j, k - 1);
    }
  }

  // --- dispatch metadata --------------------------------------------------

  lemma DigitsBound(n: Uint32)
    ensures Digits(n) <= 10
  {
    DigitsMonotone(n, MAX_UINT32);
    assert Digits(MAX_UINT32) == 1 + Digits(429496729);
    assert Digits(429496729) == 4 + Digits(42949);
    assert Digits(42949) == 5;
  }

  lemma {:induction false} DigitsMonotone(a: nat, b: nat)
    requires a <= b
    ensures Digits(a) <= Digits(b)
  {
    if b >= 10 && a >= 10 {
      DigitsMonotone(a / 10, b / 10);
    }
  }

  predicate ShortKey(key: Ident) {
    IdentLength(key) <= 256
  }

  /** Activity and compensation dispatch metadata always survives encoding and decoding. */
  lemma DispatchRoundTrip(stepName: string, attempt: Uint32, key: Ident)
    requires StableName(stepName) && ValidIdent(key) && attempt > 0 && ShortKey(key)
    ensures DecodeDispatch(DispatchDocument(stepName, attempt, key)) == Some(DispatchDocument(stepName, attempt, key))
  {
    DigitsBound(attempt);
  }

  /** Child metadata survives exactly when its names are short enough to fit the bound. */
  lemma ChildDispatchRoundTrip(stepName: string, childID: Ident, definition: DefinitionRef, attempt: Uint32, key: Ident)
    requires StableName(stepName) && ValidIdent(childID) && ValidReference(definition) && attempt > 0 && ValidIdent(key)
    ensures DecodeChildDispatch(ChildDocument(stepName, childID, definition, attempt, key)) ==
            if |stepName| + IdentLength(childID) + |definition.name| + |definition.version| + Digits(attempt) +
               IdentLength(key) <= 825
            then Some(ChildDocument(stepName, childID, definition, attempt, key))
            else None
  {
  }

  /** Names within their own bounds can still overflow the child bound: such work never decodes. */
  lemma LegalChildDispatchLost(stepName: string, childID: Ident, definition: DefinitionRef)
    requires StableName(stepName) && ValidIdent(childID) && ValidReference(definition)
    requires |stepName| == 128 && IdentLength(childID) == 256 && |definition.name| == 128 && |definition.version| == 128
    ensures DecodeChildDispatch(ChildDocument(stepName, childID, definition, 1, childID)).None?
  {
  }
}
