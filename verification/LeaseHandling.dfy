/** How the worker handles one lease: renewals while its processor runs, then a fenced disposition. */
module LeaseHandling {
  import opened Basics
  import opened Transitions
  import opened Store
  import opened StoreMachine
  import opened StoreInvariants
  import opened StoreRuns
  import StoreTheorems
  import R = InvocationRuns

  datatype Disposition = Finish | Release(code: string, retryAt: Time) | DeadLetter(code: string)

  predicate ValidDisposition(d: Disposition) {
    match d
    case Finish => true
    case Release(code, retryAt) => StableName(code) && retryAt != ZERO_TIME
    case DeadLetter(code) => StableName(code)
  }

  /** The store call that applies a decision under a lease. */
  function DispositionOp(l: WorkLease, d: Disposition, now: Time): Op
    requires now > ZERO_TIME
  {
    match d
    case Finish => DoComplete(Completed(l.work.id, l.owner, l.token, now))
    case Release(code, retryAt) => DoFail(WorkFailure(l.work.id, l.owner, l.token, now, code, Some(retryAt)))
    case DeadLetter(code) => DoFail(WorkFailure(l.work.id, l.owner, l.token, now, code, None))
  }

  /** Applies a processor's decision; only the store's own fence decides whether it still may. */
  method Finalize(store: PostgresStore, l: WorkLease, d: Disposition, now: Time) returns (failure: Option<Error>)
    requires ValidLease(l) && ValidDisposition(d)
    modifies store
    ensures failure.None? <==>
              now > ZERO_TIME && (d.Release? ==> d.retryAt > now) &&
              Live(old(store.Contents()), l.work.id, l.owner, l.token, now)
    ensures failure.None? ==> ValidOp(DispositionOp(l, d, now))
    ensures store.Contents() == if failure.None? then Perform(old(store.Contents()), DispositionOp(l, d, now))
                                else old(store.Contents())
  {
    hide ValidIdent, StableName, OptionalMetadata;
    if now <= ZERO_TIME {
      return Some(InvalidWorker);
    }
    match d {
      case Finish =>
        failure := store.Complete(Completed(l.work.id, l.owner, l.token, now));
      case Release(code, retryAt) =>
        if retryAt <= now {
          return Some(InvalidWorker);
        }
        failure := store.Fail(WorkFailure(l.work.id, l.owner, l.token, now, code, Some(retryAt)));
      case DeadLetter(code) =>
        failure := store.Fail(WorkFailure(l.work.id, l.owner, l.token, now, code, None));
    }
  }

  /** One operation the store performed while a lease was handled: this worker's own, or anybody else's. */
  datatype Deed = Deed(op: Op, own: bool)

  function OpsOf(deeds: seq<Deed>): (ops: seq<Op>)
    ensures |ops| == |deeds|
  {
    if deeds == [] then [] else OpsOf(deeds[..|deeds| - 1]) + [deeds[|deeds| - 1].op]
  }

  /** This worker's own operations, in order. */
  function OwnOps(deeds: seq<Deed>): seq<Op> {
    if deeds == [] then []
    else
      var last := deeds[|deeds| - 1];
      OwnOps(deeds[..|deeds| - 1]) + if last.own then [last.op] else []
  }

  /** The renewals of a lease at these times. */
  function Renewals(l: WorkLease, extendBy: Duration, ticks: seq<Time>): seq<Op> {
    if ticks == [] then []
    else
      var last := ticks[|ticks| - 1];
      Renewals(l, extendBy, ticks[..|ticks| - 1]) + [DoRenew(Renewal(l.work.id, l.owner, l.token, last, extendBy))]
  }

  /** The store is where these operations lead, in this order. */
  ghost predicate Led(before: Tables, deeds: seq<Deed>, after: Tables) {
    ValidOps(OpsOf(deeds)) && after == PerformAll(before, OpsOf(deeds))
  }

  lemma LedFurther(before: Tables, deeds: seq<Deed>, middle: Tables, d: Deed)
    requires Led(before, deeds, middle) && ValidOp(d.op)
    ensures Led(before, deeds + [d], Perform(middle, d.op))
    ensures OwnOps(deeds + [d]) == OwnOps(deeds) + if d.own then [d.op] else []
  {
    hide ValidOp, Perform;
    assert (deeds + [d])[..|deeds|] == deeds;
    assert OpsOf(deeds + [d])[..|deeds|] == OpsOf(deeds);
  }

  lemma NothingDone(db: Tables)
    ensures Led(db, [], db) && OwnOps([]) == []
  {
  }

  /** The last operation is the disposition, and the lease was live right before it. */
  ghost predicate EndsLive(before: Tables, deeds: seq<Deed>, l: WorkLease, d: Disposition, now: Time)
    requires now > ZERO_TIME
  {
    && deeds != [] && deeds[|deeds| - 1] == Deed(DispositionOp(l, d, now), true)
    && exists until :: Led(before, deeds[..|deeds| - 1], until) && Live(until, l.work.id, l.owner, l.token, now)
  }

  /** This worker's own part is every renewal and then, on a live lease, the disposition. */
  ghost predicate Disposing(before: Tables, deeds: seq<Deed>, l: WorkLease, ticks: seq<Time>, extendBy: Duration,
                            processed: Result<Disposition>, now: Time)
  {
    && processed.Ok? && now > ZERO_TIME
    && OwnOps(deeds) == Renewals(l, extendBy, ticks) + [DispositionOp(l, processed.value, now)]
    && EndsLive(before, deeds, l, processed.value, now)
  }

  /** The row is in the state the decision asks for, under the same token. */
  predicate InState(db: Tables, l: WorkLease, d: Disposition) {
    && l.work.id in db.work && db.work[l.work.id].token == l.token
    && match d
       case Finish => db.work[l.work.id].state.WorkFinished?
       case Release(_, _) => db.work[l.work.id].state.WorkDue?
       case DeadLetter(_) => db.work[l.work.id].state.WorkDeadLettered?
  }

  lemma DispositionLands(before: Tables, deeds: seq<Deed>, db: Tables, l: WorkLease, d: Disposition, now: Time)
    requires now > ZERO_TIME && ValidOp(DispositionOp(l, d, now)) && Led(before, deeds, db)
    requires Live(db, l.work.id, l.owner, l.token, now)
    ensures InState(Perform(db, DispositionOp(l, d, now)), l, d)
    ensures EndsLive(before, deeds + [Deed(DispositionOp(l, d, now), true)], l, d, now)
  {
    hide Led, StableName, ValidIdent;
    assert (deeds + [Deed(DispositionOp(l, d, now), true)])[..|deeds|] == deeds;
  }

  /** The same fence, whatever else a renewal changed of the lease. */
  lemma SameFence(a: WorkLease, b: WorkLease, d: Disposition, now: Time)
    requires a.work.id == b.work.id && a.owner == b.owner && a.token == b.token && now > ZERO_TIME
    ensures DispositionOp(a, d, now) == DispositionOp(b, d, now)
  {
  }

  lemma Renewing(db: Tables, r: Renewal)
    requires ValidRenewal(r)
    ensures ValidOp(DoRenew(r)) && Perform(db, DoRenew(r)) == Renew(db, r)
  {
  }

  lemma RenewedOnce(l: WorkLease, extendBy: Duration, ticks: seq<Time>, n: nat)
    requires n < |ticks|
    ensures Renewals(l, extendBy, ticks[..n + 1]) ==
            Renewals(l, extendBy, ticks[..n]) + [DoRenew(Renewal(l.work.id, l.owner, l.token, ticks[n], extendBy))]
  {
    assert ticks[..n + 1][..n] == ticks[..n];
  }

  /** Others use the store meanwhile, the processor of this very lease among them; nobody does while it is calm. */
  method OthersUse(store: PostgresStore, calm: bool, ghost before: Tables, ghost deeds: seq<Deed>)
    returns (ghost since: seq<Deed>)
    requires StoreOk(store.Contents()) && Led(before, deeds, store.Contents())
    modifies store
    ensures StoreOk(store.Contents())
    ensures Led(before, since, store.Contents()) && OwnOps(since) == OwnOps(deeds)
    ensures calm ==> store.Contents() == old(store.Contents())
  {
    hide ValidOp, Perform, Led, StoreOk;
    since := deeds;
    var count: nat := *;
    if calm {
      count := 0;
    }
    while count > 0
      invariant StoreOk(store.Contents()) && (calm ==> count == 0 && store.Contents() == old(store.Contents()))
      invariant Led(before, since, store.Contents()) && OwnOps(since) == OwnOps(deeds)
      decreases count
    {
      count := count - 1;
      var op: Op := *;
      if ValidOp(op) {
        PerformKeeps(store.Contents(), op);
        LedFurther(before, since, store.Contents(), Deed(op, false));
        since := since + [Deed(op, false)];
        store.Publish(Perform(store.Contents(), op));
      }
    }
  }

  /** The store after renewing a lease at these times. */
  function RenewedAt(db: Tables, l: WorkLease, extendBy: Duration, ticks: seq<Time>): Tables {
    if ticks == [] then db
    else
      Renew(RenewedAt(db, l, extendBy, ticks[..|ticks| - 1]),
            Renewal(l.work.id, l.owner, l.token, ticks[|ticks| - 1], extendBy))
  }

  /** Every renewal finds the lease live. */
  predicate StaysRenewable(db: Tables, l: WorkLease, extendBy: Duration, ticks: seq<Time>) {
    forall n | 0 <= n < |ticks| ::
      var r := Renewal(l.work.id, l.owner, l.token, ticks[n], extendBy);
      ValidRenewal(r) && Renewable(RenewedAt(db, l, extendBy, ticks[..n]), r)
  }

  /** The whole handling can succeed: its own lease, a valid decision, and the fence live whenever it is used. */
  predicate Smooth(owner: Ident, db: Tables, l: WorkLease, ticks: seq<Time>, extendBy: Duration,
                   processed: Result<Disposition>, now: Time)
  {
    && ValidLease(l) && l.owner == owner && processed.Ok? && ValidDisposition(processed.value)
    && StaysRenewable(db, l, extendBy, ticks) && now > ZERO_TIME
    && (processed.value.Release? ==> processed.value.retryAt > now)
    && Live(RenewedAt(db, l, extendBy, ticks), l.work.id, l.owner, l.token, now)
  }

  lemma NotYetRenewed(db: Tables, l: WorkLease, extendBy: Duration)
    ensures RenewedAt(db, l, extendBy, []) == db
  {
  }

  lemma RenewedOnceMore(db: Tables, l: WorkLease, extendBy: Duration, ticks: seq<Time>, n: nat)
    requires n < |ticks|
    ensures RenewedAt(db, l, extendBy, ticks[..n + 1]) ==
            Renew(RenewedAt(db, l, extendBy, ticks[..n]), Renewal(l.work.id, l.owner, l.token, ticks[n], extendBy))
  {
    hide Renew;
    assert ticks[..n + 1][..n] == ticks[..n];
  }

  /**
   * Renews the lease while its processor runs and applies the decision at the
   * end, others using the store all the time and any reply possibly lost.
   * `deeds` is everything the store did meanwhile. When this fails, this
   * worker's own part of it is a prefix of the renewals under this very token,
   * which leaves the disposition to recovery, unless only the last reply was
   * lost. When it succeeds, its part is all the renewals and then, under a
   * fence still live at that moment, the disposition. While it is calm it
   * succeeds exactly when the fence is live whenever it is used.
   */
  method Handle(calm: bool, owner: Ident, store: PostgresStore, lease: WorkLease, ticks: seq<Time>, extendBy: Duration,
                processed: Result<Disposition>, now: Time)
    returns (failure: Option<Error>, ghost deeds: seq<Deed>, ghost disposed: bool)
    requires StoreOk(store.Contents())
    modifies store
    ensures StoreOk(store.Contents()) && Led(old(store.Contents()), deeds, store.Contents())
    ensures if disposed then
              && Disposing(old(store.Contents()), deeds, lease, ticks, extendBy, processed, now)
              && ValidLease(lease) && lease.owner == owner && ValidDisposition(processed.value)
              && InState(store.Contents(), lease, processed.value)
            else exists n | 0 <= n <= |ticks| :: OwnOps(deeds) == Renewals(lease, extendBy, ticks[..n])
    ensures failure.None? ==> disposed
    ensures failure.Some? && disposed ==> failure == Some(Transport)
    ensures calm ==> (failure.None? <==> Smooth(owner, old(store.Contents()), lease, ticks, extendBy, processed, now))
  {
    hide Live, Renewable, ValidRenewal, RenewedAt, ValidLease, ValidDisposition, Led, Perform, ValidOp, StoreOk,
         DispositionOp, EndsLive, InState, Renew;
    ghost var before := store.Contents();
    deeds, disposed := [], false;
    NothingDone(before);
    assert OwnOps(deeds) == Renewals(lease, extendBy, ticks[..0]);
    if !ValidLease(lease) || lease.owner != owner {
      return Some(InvalidWorker), deeds, false;
    }
    NotYetRenewed(before, lease, extendBy);
    assert ticks[..0] == [];
    var current := lease;
    for n := 0 to |ticks|
      invariant ValidLease(current) && current.owner == lease.owner && current.token == lease.token
      invariant StoreOk(store.Contents()) && current.work.id == lease.work.id
      invariant Led(before, deeds, store.Contents()) && OwnOps(deeds) == Renewals(lease, extendBy, ticks[..n])
      invariant calm ==> store.Contents() == RenewedAt(before, lease, extendBy, ticks[..n])
      invariant calm ==> forall m | 0 <= m < n ::
                  ValidRenewal(Renewal(lease.work.id, lease.owner, lease.token, ticks[m], extendBy)) &&
                  Renewable(RenewedAt(before, lease, extendBy, ticks[..m]),
                            Renewal(lease.work.id, lease.owner, lease.token, ticks[m], extendBy))
    {
      deeds := OthersUse(store, calm, before, deeds);
      var renewal := Renewal(current.work.id, current.owner, current.token, ticks[n], extendBy);
      var sent: bool, acknowledged: bool := *, *;
      if !ValidRenewal(renewal) {
        return Some(InvalidWorker), deeds, false;
      }
      RenewedOnceMore(before, lease, extendBy, ticks, n);
      if !sent && !calm {
        return Some(Transport), deeds, false;
      }
      ghost var held := store.Contents();
      Renewing(held, renewal);
      PerformKeeps(held, DoRenew(renewal));
      LedFurther(before, deeds, held, Deed(DoRenew(renewal), true));
      RenewedOnce(lease, extendBy, ticks, n);
      deeds := deeds + [Deed(DoRenew(renewal), true)];
      var renewed := store.Renew(renewal);
      if (!acknowledged && !calm) || renewed.Err? {
        return Some(if renewed.Err? then renewed.error else Transport), deeds, false;
      }
      StoreTheorems.RenewedLeaseValid(held, renewal);
      current := renewed.value.value;
    }
    assert ticks[..|ticks|] == ticks;
    deeds := OthersUse(store, calm, before, deeds);
    if processed.Err? {
      return Some(processed.error), deeds, false;
    }
    var sent: bool, acknowledged: bool := *, *;
    if !ValidDisposition(processed.value) || (!sent && !calm) {
      return Some(if sent then InvalidWorker else Transport), deeds, false;
    }
    ghost var still := store.Contents();
    failure := Finalize(store, current, processed.value, now);
    if failure.None? {
      ghost var deed := Deed(DispositionOp(lease, processed.value, now), true);
      SameFence(lease, current, processed.value, now);
      PerformKeeps(still, deed.op);
      LedFurther(before, deeds, still, deed);
      DispositionLands(before, deeds, still, lease, processed.value, now);
      deeds, disposed := deeds + [deed], true;
      if !acknowledged && !calm {
        failure := Some(Transport);
      }
    }
  }

  /**
   * What a handled lease contributes to the at-most-once theorem: if the clock
   * never goes back and nobody else renews under this token, its renewals are
   * orderly, so none of them shortens the lease.
   */
  lemma {:induction false} OwnRenewalsOrderly(l: WorkLease, extendBy: Duration, ticks: seq<Time>, at: Time, deeds: seq<Deed>)
    requires OwnOps(deeds) == Renewals(l, extendBy, ticks)
    requires (forall t | t in ticks :: t >= at) && forall j, k | 0 <= j < k < |ticks| :: ticks[j] <= ticks[k]
    requires forall k | 0 <= k < |deeds| :: R.RenewsFence(deeds[k].op, l.work.id, l.token) ==> deeds[k].own
    ensures R.OrderlyRenewals(OpsOf(deeds), l.work.id, l.token, at, extendBy)
    ensures forall k | 0 <= k < |deeds| && R.RenewsFence(OpsOf(deeds)[k], l.work.id, l.token) ::
              OpsOf(deeds)[k].renewal.now in ticks
  {
    hide R.OrderlyRenewals;
    if deeds == [] {
      NoneOrderly(l.work.id, l.token, at, extendBy);
    } else {
      var init, last := deeds[..|deeds| - 1], deeds[|deeds| - 1];
      forall k | 0 <= k < |init| ensures R.RenewsFence(init[k].op, l.work.id, l.token) ==> init[k].own {
        assert init[k] == deeds[k];
      }
      if last.own {
        var earlier := ticks[..|ticks| - 1];
        LastRenewal(l, extendBy, ticks, OwnOps(init), last.op);
        assert ticks == earlier + [ticks[|ticks| - 1]];
        forall t | t in earlier ensures t >= at && t <= ticks[|ticks| - 1] {
          assert t in ticks;
        }
        OwnRenewalsOrderly(l, extendBy, earlier, at, init);
        assert ticks[|ticks| - 1] in ticks;
        forall k | 0 <= k < |init| && R.RenewsFence(OpsOf(init)[k], l.work.id, l.token)
          ensures OpsOf(init)[k].renewal.now <= last.op.renewal.now
        {
          assert OpsOf(init)[k].renewal.now in earlier;
        }
      } else {
        OwnRenewalsOrderly(l, extendBy, ticks, at, init);
      }
      OrderlySnoc(OpsOf(init), last.op, l.work.id, l.token, at, extendBy);
      assert OpsOf(deeds) == OpsOf(init) + [last.op];
    }
  }

  lemma NoneOrderly(id: Ident, token: nat, at: Time, duration: Duration)
    ensures R.OrderlyRenewals([], id, token, at, duration)
  {
  }

  lemma OrderlySnoc(ops: seq<Op>, op: Op, id: Ident, token: nat, at: Time, duration: Duration)
    requires R.OrderlyRenewals(ops, id, token, at, duration)
    requires R.RenewsFence(op, id, token) ==>
               && op.renewal.extendBy == duration && op.renewal.now >= at
               && forall k | 0 <= k < |ops| && R.RenewsFence(ops[k], id, token) :: ops[k].renewal.now <= op.renewal.now
    ensures R.OrderlyRenewals(ops + [op], id, token, at, duration)
  {
    hide R.RenewsFence;
  }

  lemma LastRenewal(l: WorkLease, extendBy: Duration, ticks: seq<Time>, before: seq<Op>, op: Op)
    requires before + [op] == Renewals(l, extendBy, ticks)
    ensures ticks != [] && before == Renewals(l, extendBy, ticks[..|ticks| - 1])
    ensures op == DoRenew(Renewal(l.work.id, l.owner, l.token, ticks[|ticks| - 1], extendBy))
  {
    assert |before + [op]| == |before| + 1;
    var init := Renewals(l, extendBy, ticks[..|ticks| - 1]);
    assert (before + [op])[..|before|] == before && Renewals(l, extendBy, ticks)[..|init|] == init;
  }
}
