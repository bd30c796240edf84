/** The worker's admission loop: bounded concurrency and a fair start order. */
module Worker {
  import opened Basics
  import opened Transitions

  // --- fair order ---------------------------------------------------------

  function TenantOf(l: WorkLease): Ident {
    l.work.tenantID
  }

  /** The leases of one tenant, in order. */
  function OfTenant(leases: seq<WorkLease>, tenant: Ident): (own: seq<WorkLease>)
    ensures |own| <= |leases|
    ensures own == [] <==> forall l | l in leases :: TenantOf(l) != tenant
  {
    if leases == [] then []
    else
      var last := leases[|leases| - 1];
      OfTenant(leases[..|leases| - 1], tenant) + if TenantOf(last) == tenant then [last] else []
  }

  lemma OfTenantSnoc(leases: seq<WorkLease>, l: WorkLease, tenant: Ident)
    ensures OfTenant(leases + [l], tenant) == OfTenant(leases, tenant) + if TenantOf(l) == tenant then [l] else []
  {
    assert (leases + [l])[..|leases|] == leases;
  }

  /** How many of the first `n` leases belong to a tenant. */
  function Served(leases: seq<WorkLease>, n: nat, tenant: Ident): nat
    requires n <= |leases|
  {
    |OfTenant(leases[..n], tenant)|
  }

  /** No tenant is more than one behind another at `n`, unless it has nothing left. */
  ghost predicate FairAt(leases: seq<WorkLease>, n: nat, all: seq<WorkLease>)
    requires n <= |leases|
  {
    forall a, b :: Served(leases, n, a) <= Served(leases, n, b) + 1 || Served(leases, n, b) == |OfTenant(all, b)|
  }

  ghost predicate FairPrefixes(leases: seq<WorkLease>, all: seq<WorkLease>) {
    forall n | 0 <= n <= |leases| :: FairAt(leases, n, all)
  }

  /** The tenants of some leases, in the order of their first one. */
  function Tenants(leases: seq<WorkLease>): seq<Ident> {
    if leases == [] then []
    else
      var before, tenant := Tenants(leases[..|leases| - 1]), TenantOf(leases[|leases| - 1]);
      if tenant in before then before else before + [tenant]
  }

  lemma TenantsSnoc(leases: seq<WorkLease>, l: WorkLease)
    ensures Tenants(leases + [l]) == if TenantOf(l) in Tenants(leases) then Tenants(leases) else Tenants(leases) + [TenantOf(l)]
  {
    assert (leases + [l])[..|leases|] == leases;
  }

  /**
   * The first `n` leases are some full rounds over the tenants and the beginning
   * of the next: every tenant in order of its first lease has had one in each
   * round, unless it has run out.
   */
  ghost predicate InTurn(leases: seq<WorkLease>, result: seq<WorkLease>, n: nat)
    requires n <= |result|
  {
    var order := Tenants(leases);
    exists rounds: nat, k: nat :: k <= |order| && Turns(leases, result, n, rounds, k)
  }

  ghost predicate Turns(leases: seq<WorkLease>, result: seq<WorkLease>, n: nat, rounds: nat, k: nat)
    requires n <= |result|
  {
    var order := Tenants(leases);
    forall j | 0 <= j < |order| ::
      Served(result, n, order[j]) == Min(|OfTenant(leases, order[j])|, rounds + if j < k then 1 else 0)
  }

  ghost predicate InTurnThroughout(leases: seq<WorkLease>, result: seq<WorkLease>) {
    forall n | 0 <= n <= |result| :: InTurn(leases, result, n)
  }

  lemma DealtInTurn(leases: seq<WorkLease>, result: seq<WorkLease>, groups: map<Ident, seq<WorkLease>>, order: seq<Ident>,
                    rounds: nat, k: nat)
    requires Grouped(leases, groups, order) && order == Tenants(leases) && k <= |order|
    requires Dealt(result, groups, order, rounds, k)
    ensures InTurn(leases, result, |result|)
  {
    hide OfTenant, Tenants;
    assert result[..|result|] == result;
    assert Turns(leases, result, |result|, rounds, k);
  }

  lemma InTurnGrows(leases: seq<WorkLease>, result: seq<WorkLease>, l: WorkLease)
    requires InTurnThroughout(leases, result) && InTurn(leases, result + [l], |result| + 1)
    ensures InTurnThroughout(leases, result + [l])
  {
    hide OfTenant, Tenants;
    forall n | 0 <= n <= |result + [l]| ensures InTurn(leases, result + [l], n) {
      if n <= |result| {
        assert (result + [l])[..n] == result[..n];
        assert InTurn(leases, result, n);
        var rounds: nat, k: nat :| k <= |Tenants(leases)| && Turns(leases, result, n, rounds, k);
        assert Turns(leases, result + [l], n, rounds, k);
      }
    }
  }

  ghost predicate Grouped(leases: seq<WorkLease>, groups: map<Ident, seq<WorkLease>>, order: seq<Ident>) {
    && (forall tenant :: tenant in groups <==> tenant in order)
    && (forall i, j | 0 <= i < j < |order| :: order[i] != order[j])
    && (forall tenant | tenant in groups :: groups[tenant] == OfTenant(leases, tenant) && groups[tenant] != [])
    && (forall tenant | tenant !in groups :: OfTenant(leases, tenant) == [])
  }

  /** One more lease joins its tenant's group, opening it if it is the first. */
  lemma GroupGrows(leases: seq<WorkLease>, groups: map<Ident, seq<WorkLease>>, order: seq<Ident>, l: WorkLease)
    requires Grouped(leases, groups, order)
    ensures var own := if TenantOf(l) in groups then groups[TenantOf(l)] else [];
            Grouped(leases + [l], groups[TenantOf(l) := own + [l]],
                    if TenantOf(l) in groups then order else order + [TenantOf(l)])
  {
    hide OfTenant;
    forall other
      ensures OfTenant(leases + [l], other) == OfTenant(leases, other) + if other == TenantOf(l) then [l] else []
    {
      OfTenantSnoc(leases, l, other);
    }
  }

  /** `largest` bounds every group. */
  ghost predicate Bounded(groups: map<Ident, seq<WorkLease>>, largest: nat) {
    forall tenant | tenant in groups :: |groups[tenant]| <= largest
  }

  /** Adds one lease to its tenant's group. */
  method AddToGroup(ghost leases: seq<WorkLease>, groups: map<Ident, seq<WorkLease>>, order: seq<Ident>, largest: nat,
                    lease: WorkLease)
    returns (grown: map<Ident, seq<WorkLease>>, longer: seq<Ident>, larger: nat)
    requires Grouped(leases, groups, order) && Bounded(groups, largest)
    requires order == Tenants(leases)
    ensures Grouped(leases + [lease], grown, longer) && Bounded(grown, larger) && longer == Tenants(leases + [lease])
  {
    hide OfTenant, Tenants;
    GroupGrows(leases, groups, order, lease);
    TenantsSnoc(leases, lease);
    assert TenantOf(lease) in groups <==> TenantOf(lease) in order;
    hide Grouped;
    var tenant := TenantOf(lease);
    if tenant in groups {
      grown, longer := groups[tenant := groups[tenant] + [lease]], order;
    } else {
      grown, longer := groups[tenant := [] + [lease]], order + [tenant];
    }
    larger := Max(largest, |grown[tenant]|);
  }

  method GroupByTenant(leases: seq<WorkLease>)
    returns (groups: map<Ident, seq<WorkLease>>, order: seq<Ident>, largest: nat)
    ensures Grouped(leases, groups, order) && Bounded(groups, largest) && order == Tenants(leases)
  {
    groups, order, largest := map[], [], 0;
    NoGroups();
    hide Grouped, OfTenant, Bounded, Tenants;
    for n := 0 to |leases|
      invariant Grouped(leases[..n], groups, order) && Bounded(groups, largest) && order == Tenants(leases[..n])
    {
      assert leases[..n + 1] == leases[..n] + [leases[n]];
      groups, order, largest := AddToGroup(leases[..n], groups, order, largest, leases[n]);
    }
    assert leases[..|leases|] == leases;
  }

  lemma NoGroups()
    ensures Grouped([], map[], []) && Bounded(map[], 0) && Tenants([]) == []
  {
  }

  /** After `rounds` full rounds and `k` tenants of the next, each tenant has its due share. */
  ghost predicate Dealt(result: seq<WorkLease>, groups: map<Ident, seq<WorkLease>>, order: seq<Ident>, rounds: nat, k: nat)
    requires k <= |order| && forall tenant | tenant in order :: tenant in groups
  {
    && (forall j | 0 <= j < |order| ::
          OfTenant(result, order[j]) ==
          groups[order[j]][..Min(|groups[order[j]]|, rounds + if j < k then 1 else 0)])
    && (forall tenant | tenant !in order :: OfTenant(result, tenant) == [])
  }

  lemma DealtIsFair(leases: seq<WorkLease>, result: seq<WorkLease>, groups: map<Ident, seq<WorkLease>>, order: seq<Ident>,
                    rounds: nat, k: nat)
    requires Grouped(leases, groups, order) && k <= |order| && Dealt(result, groups, order, rounds, k)
    ensures FairAt(result, |result|, leases)
  {
    hide OfTenant;
    assert result[..|result|] == result;
    forall a, b
      ensures Served(result, |result|, a) <= Served(result, |result|, b) + 1 ||
              Served(result, |result|, b) == |OfTenant(leases, b)|
    {
      if a in order {
        var i :| 0 <= i < |order| && order[i] == a;
        assert Served(result, |result|, a) <= rounds + 1;
      }
      if b in order {
        var j :| 0 <= j < |order| && order[j] == b;
        assert Served(result, |result|, b) >= Min(|groups[b]|, rounds);
      }
    }
  }

  lemma FairGrows(result: seq<WorkLease>, l: WorkLease, all: seq<WorkLease>)
    requires FairPrefixes(result, all) && FairAt(result + [l], |result| + 1, all)
    ensures FairPrefixes(result + [l], all)
  {
    hide OfTenant;
    forall n | 0 <= n <= |result + [l]| ensures FairAt(result + [l], n, all) {
      if n <= |result| {
        assert (result + [l])[..n] == result[..n];
        assert FairAt(result, n, all);
        forall a ensures Served(result + [l], n, a) == Served(result, n, a) {
        }
      }
    }
  }

  /**
   * Interleaves tenants round by round, in the order of their first leases. Each
   * tenant's own order is kept, nothing is lost or added, and every prefix is
   * fair.
   */
  method FairLeaseOrder(leases: seq<WorkLease>) returns (result: seq<WorkLease>)
    ensures forall tenant :: OfTenant(result, tenant) == OfTenant(leases, tenant)
    ensures multiset(result) == multiset(leases)
    ensures FairPrefixes(result, leases) && InTurnThroughout(leases, result)
  {
    hide FairAt, FairPrefixes, OfTenant, Grouped, Dealt, InTurn, InTurnThroughout, Tenants, Bounded;
    var groups, order, largest := GroupByTenant(leases);
    result := [];
    NothingDealt(leases, groups, order);
    for index := 0 to largest
      invariant (forall tenant | tenant in order :: tenant in groups) && Dealt(result, groups, order, index, 0)
      invariant FairPrefixes(result, leases) && InTurnThroughout(leases, result)
    {
      for k := 0 to |order|
        invariant Dealt(result, groups, order, index, k) && FairPrefixes(result, leases)
        invariant InTurnThroughout(leases, result)
      {
        var tenant := order[k];
        if index >= |groups[tenant]| {
          SkipExhausted(result, groups, order, index, k);
          continue;
        }
        var lease := groups[tenant][index];
        GroupShape(leases, groups, order, k);
        DealOne(result, groups, order, index, k);
        DealtIsFair(leases, result + [lease], groups, order, index, k + 1);
        FairGrows(result, lease, leases);
        DealtInTurn(leases, result + [lease], groups, order, index, k + 1);
        InTurnGrows(leases, result, lease);
        result := result + [lease];
      }
      RoundOver(result, groups, order, index);
    }
    BoundedGroups(groups, largest);
    AllDealt(leases, result, groups, order, largest);
    SameTenantsSameLeases(result, leases);
  }

  lemma BoundedGroups(groups: map<Ident, seq<WorkLease>>, largest: nat)
    requires Bounded(groups, largest)
    ensures forall tenant | tenant in groups :: |groups[tenant]| <= largest
  {
  }

  lemma AllDealt(leases: seq<WorkLease>, result: seq<WorkLease>, groups: map<Ident, seq<WorkLease>>, order: seq<Ident>,
                 rounds: nat)
    requires Grouped(leases, groups, order) && Dealt(result, groups, order, rounds, 0)
    requires forall tenant | tenant in groups :: |groups[tenant]| <= rounds
    ensures forall tenant :: OfTenant(result, tenant) == OfTenant(leases, tenant)
  {
    hide OfTenant;
    forall tenant ensures OfTenant(result, tenant) == OfTenant(leases, tenant) {
      if tenant in order {
        var j :| 0 <= j < |order| && order[j] == tenant;
        assert groups[tenant][..|groups[tenant]|] == groups[tenant];
      }
    }
  }

  lemma NothingDealt(leases: seq<WorkLease>, groups: map<Ident, seq<WorkLease>>, order: seq<Ident>)
    requires Grouped(leases, groups, order)
    ensures forall tenant | tenant in order :: tenant in groups
    requires order == Tenants(leases)
    ensures Dealt([], groups, order, 0, 0) && FairPrefixes([], leases) && InTurnThroughout(leases, [])
  {
    hide Tenants;
    DealtInTurn(leases, [], groups, order, 0, 0);
  }

  lemma SkipExhausted(result: seq<WorkLease>, groups: map<Ident, seq<WorkLease>>, order: seq<Ident>, rounds: nat, k: nat)
    requires k < |order| && (forall tenant | tenant in order :: tenant in groups)
    requires Dealt(result, groups, order, rounds, k) && rounds >= |groups[order[k]]|
    ensures Dealt(result, groups, order, rounds, k + 1)
  {
    hide OfTenant;
  }

  lemma DealOne(result: seq<WorkLease>, groups: map<Ident, seq<WorkLease>>, order: seq<Ident>, rounds: nat, k: nat)
    requires k < |order| && (forall tenant | tenant in order :: tenant in groups)
    requires Dealt(result, groups, order, rounds, k)
    requires rounds < |groups[order[k]]| && TenantOf(groups[order[k]][rounds]) == order[k]
    requires forall j | 0 <= j < |order| && j != k :: order[j] != order[k]
    ensures Dealt(result + [groups[order[k]][rounds]], groups, order, rounds, k + 1)
  {
    hide OfTenant;
    var l := groups[order[k]][rounds];
    forall j | 0 <= j < |order|
      ensures OfTenant(result + [l], order[j]) ==
              groups[order[j]][..Min(|groups[order[j]]|, rounds + if j < k + 1 then 1 else 0)]
    {
      OfTenantSnoc(result, l, order[j]);
      if j == k {
        assert groups[order[k]][..rounds + 1] == groups[order[k]][..rounds] + [l];
      } else {
        assert OfTenant(result + [l], order[j]) == OfTenant(result, order[j]);
      }
    }
    forall tenant | tenant !in order ensures OfTenant(result + [l], tenant) == [] {
      OfTenantSnoc(result, l, tenant);
    }
  }

  /** A group's leases belong to its tenant, and no tenant is listed twice. */
  lemma GroupShape(leases: seq<WorkLease>, groups: map<Ident, seq<WorkLease>>, order: seq<Ident>, k: nat)
    requires Grouped(leases, groups, order) && k < |order|
    ensures order[k] in groups && forall i | 0 <= i < |groups[order[k]]| :: TenantOf(groups[order[k]][i]) == order[k]
    ensures forall j | 0 <= j < |order| && j != k :: order[j] != order[k]
    ensures forall tenant | tenant in order :: tenant in groups
  {
    hide OfTenant;
    forall i | 0 <= i < |groups[order[k]]| ensures TenantOf(groups[order[k]][i]) == order[k] {
      OwnTenant(leases, order[k], i);
    }
  }

  lemma {:induction false} OwnTenant(leases: seq<WorkLease>, tenant: Ident, i: nat)
    requires i < |OfTenant(leases, tenant)|
    ensures TenantOf(OfTenant(leases, tenant)[i]) == tenant
  {
    var init := leases[..|leases| - 1];
    if i < |OfTenant(init, tenant)| {
      OwnTenant(init, tenant, i);
    }
  }

  lemma RoundOver(result: seq<WorkLease>, groups: map<Ident, seq<WorkLease>>, order: seq<Ident>, rounds: nat)
    requires forall tenant | tenant in order :: tenant in groups
    requires Dealt(result, groups, order, rounds, |order|)
    ensures Dealt(result, groups, order, rounds + 1, 0)
  {
    hide OfTenant;
  }

  /** A lease occurs as often among all leases as among its own tenant's. */
  lemma {:induction false} CountedByTenant(leases: seq<WorkLease>, l: WorkLease)
    ensures multiset(leases)[l] == multiset(OfTenant(leases, TenantOf(l)))[l]
  {
    if leases != [] {
      var init, last := leases[..|leases| - 1], leases[|leases| - 1];
      CountedByTenant(init, l);
      assert leases == init + [last];
    }
  }

  lemma SameTenantsSameLeases(a: seq<WorkLease>, b: seq<WorkLease>)
    requires forall tenant :: OfTenant(a, tenant) == OfTenant(b, tenant)
    ensures multiset(a) == multiset(b)
  {
    hide OfTenant;
    forall l ensures multiset(a)[l] == multiset(b)[l] {
      CountedByTenant(a, l);
      CountedByTenant(b, l);
    }
  }

  // --- admission ----------------------------------------------------------

  /** What comes of one attempt to claim: the request itself is refused, the store fails, or leases come back. */
  datatype ClaimReply = RequestRefused | ClaimFailed | Claimed(leases: seq<WorkLease>)

  datatype Wake = ContextDone | PollTimer | HandlerResult

  /** One turn of the loop as the outside decides it. */
  datatype Turn = Turn(cancelled: bool, reply: ClaimReply, wake: Wake)

  /** How many leases a turn asks for; none without a free handler. */
  function Asked(claimLimit: nat, maxConcurrent: nat, active: nat): nat
    requires active <= maxConcurrent
  {
    Min(claimLimit, maxConcurrent - active)
  }

  /** The turn ends the worker: its request is refused, or the store returns more than was asked for. */
  predicate Oversteps(turn: Turn, claimLimit: nat, maxConcurrent: nat, active: nat)
    requires active <= maxConcurrent
  {
    active < maxConcurrent &&
    (turn.reply.RequestRefused? ||
     (turn.reply.Claimed? && |turn.reply.leases| > Asked(claimLimit, maxConcurrent, active)))
  }

  /** The leases a turn admits. */
  function Accepted(turn: Turn, claimLimit: nat, maxConcurrent: nat, active: nat): seq<WorkLease>
    requires active <= maxConcurrent
  {
    if active < maxConcurrent && turn.reply.Claimed? && !Oversteps(turn, claimLimit, maxConcurrent, active) then
      turn.reply.leases
    else []
  }

  /** The leases admitted by the first turns, given the active count at the start of each. */
  function AcceptedBy(turns: seq<Turn>, claimLimit: nat, maxConcurrent: nat, counts: seq<nat>): multiset<WorkLease>
    requires |counts| <= |turns| && forall k | 0 <= k < |counts| :: counts[k] <= maxConcurrent
  {
    if counts == [] then multiset{}
    else
      var last := |counts| - 1;
      AcceptedBy(turns, claimLimit, maxConcurrent, counts[..last]) +
      multiset(Accepted(turns[last], claimLimit, maxConcurrent, counts[last]))
  }

  lemma NothingAccepted(turns: seq<Turn>, claimLimit: nat, maxConcurrent: nat)
    ensures AcceptedBy(turns, claimLimit, maxConcurrent, []) == multiset{}
  {
  }

  /** What one more turn admits. */
  lemma AcceptedSnoc(turns: seq<Turn>, claimLimit: nat, maxConcurrent: nat, counts: seq<nat>, active: nat,
                     before: seq<WorkLease>, admitted: seq<WorkLease>)
    requires |counts| < |turns| && (forall k | 0 <= k < |counts| :: counts[k] <= maxConcurrent) && active <= maxConcurrent
    requires multiset(before) == AcceptedBy(turns, claimLimit, maxConcurrent, counts)
    requires multiset(admitted) == multiset(Accepted(turns[|counts|], claimLimit, maxConcurrent, active))
    ensures multiset(before + admitted) == AcceptedBy(turns, claimLimit, maxConcurrent, counts + [active])
  {
    hide Accepted;
    assert (counts + [active])[..|counts|] == counts;
  }

  /**
   * The admission loop's counters. `running` handlers have not finished; `unread`
   * ones have put their result into a channel as large as the handler bound.
   */
  class AdmissionLoop {
    const maxConcurrent: nat
    const claimLimit: nat
    var active: nat
    var running: nat
    var unread: nat
    var collected: nat
    var admitted: seq<WorkLease>

    /**
     * Running handlers and unread results make up the active count, which never
     * exceeds the bound, and every admitted lease is running, unread or collected.
     */
    predicate Valid()
      reads this
    {
      running + unread == active <= maxConcurrent && 0 < claimLimit && |admitted| == active + collected
    }

    constructor (maxConcurrent: nat, claimLimit: nat)
      requires claimLimit > 0
      ensures Valid() && active == 0 && admitted == [] && this.maxConcurrent == maxConcurrent
      ensures this.claimLimit == claimLimit
    {
      this.maxConcurrent, this.claimLimit := maxConcurrent, claimLimit;
      active, running, unread, collected, admitted := 0, 0, 0, 0, [];
    }

    /** A handler puts its result into the channel: there is always room for it. */
    method SendResult()
      requires running + unread == active <= maxConcurrent && running > 0
      modifies this`running, this`unread
      ensures old(unread) < maxConcurrent && running == old(running) - 1 && unread == old(unread) + 1
    {
      running := running - 1;
      unread := unread + 1;
    }

    /** Any number of handlers finish while the loop is busy elsewhere, each without ever blocking. */
    method HandlersProgress()
      requires running + unread == active <= maxConcurrent
      modifies this`running, this`unread
      ensures running + unread == active && running <= old(running) && unread >= old(unread)
    {
      var ending: nat := *;
      while ending > 0 && running > 0
        invariant running + unread == active && running <= old(running) && unread >= old(unread)
        decreases ending
      {
        SendResult();
        ending := ending - 1;
      }
    }

    /** Shutdown joins every handler although nobody reads results any more. */
    method Join()
      requires Valid()
      modifies this`running, this`unread
      ensures Valid() && running == 0 && unread == active
    {
      while running > 0
        invariant Valid()
        decreases running
      {
        SendResult();
      }
    }

    /** Starts one handler per lease of a claim, tenants interleaved, while others finish. */
    method Admit(leases: seq<WorkLease>)
      requires Valid() && |leases| <= maxConcurrent - active
      modifies this`active, this`running, this`unread, this`admitted
      ensures Valid() && active == old(active) + |leases| && unread >= old(unread)
      ensures |admitted| == |old(admitted)| + |leases| && admitted[..|old(admitted)|] == old(admitted)
      ensures multiset(admitted[|old(admitted)|..]) == multiset(leases)
      ensures FairPrefixes(admitted[|old(admitted)|..], leases)
    {
      hide FairPrefixes;
      var ordered := FairLeaseOrder(leases);
      assert |multiset(ordered)| == |multiset(leases)|;
      ghost var before := admitted;
      for n := 0 to |ordered|
        invariant running + unread == active == old(active) + n && unread >= old(unread)
        invariant |admitted| == active + collected
        invariant admitted == before + ordered[..n]
      {
        active := active + 1;
        running := running + 1;
        admitted := admitted + [ordered[n]];
        HandlersProgress();
      }
      assert ordered[..|ordered|] == ordered;
      assert admitted[|before|..] == ordered;
    }

    /** One turn: claim within capacity, admit, and otherwise wait for a result, a timer or the end. */
    method TakeTurn(turn: Turn) returns (invalid: bool)
      requires Valid()
      modifies this
      ensures Valid() && invalid == Oversteps(turn, claimLimit, maxConcurrent, old(active))
      ensures |old(admitted)| <= |admitted| && admitted[..|old(admitted)|] == old(admitted)
      ensures multiset(admitted[|old(admitted)|..]) == multiset(Accepted(turn, claimLimit, maxConcurrent, old(active)))
      ensures collected <= old(collected) + 1
      ensures collected > old(collected) ==> !invalid && turn.wake.HandlerResult? && admitted == old(admitted)
      ensures !invalid && admitted == old(admitted) && turn.wake.HandlerResult? && old(unread) > 0 ==> collected > old(collected)
    {
      hide FairPrefixes;
      var capacity := maxConcurrent - active;
      if capacity > 0 {
        var limit := Min(claimLimit, capacity);
        HandlersProgress();
        if turn.reply.RequestRefused? {
          return true;
        }
        if turn.reply.Claimed? {
          var leases := turn.reply.leases;
          if |leases| > limit {
            return true;
          }
          Admit(leases);
          if |leases| > 0 {
            return false;
          }
        }
      }
      HandlersProgress();
      if turn.wake.HandlerResult? && unread > 0 {
        unread := unread - 1;
        active := active - 1;
        collected := collected + 1;
      }
      return false;
    }

    /**
     * Runs the loop over any sequence of turns, handlers finishing at any point,
     * and joins at the end. `counts` holds the active count at the start of each
     * turn taken. The admitted leases are exactly those the claims returned
     * within what was asked for, and the worker ends invalid exactly when the
     * last turn's request was refused or its claim returned more than that.
     */
    method Run(turns: seq<Turn>) returns (invalid: bool, counts: seq<nat>)
      requires Valid()
      modifies this
      ensures Valid() && running == 0 && unread == active
      ensures |counts| <= |turns| && forall k | 0 <= k < |counts| :: counts[k] <= maxConcurrent && !turns[k].cancelled
      ensures |old(admitted)| <= |admitted| && admitted[..|old(admitted)|] == old(admitted)
      ensures multiset(admitted[|old(admitted)|..]) == AcceptedBy(turns, claimLimit, maxConcurrent, counts)
      ensures invalid <==> counts != [] && var last := |counts| - 1;
                             Oversteps(turns[last], claimLimit, maxConcurrent, counts[last])
      ensures forall k | 0 <= k < |counts| - 1 :: !Oversteps(turns[k], claimLimit, maxConcurrent, counts[k])
      ensures |counts| < |turns| && !invalid ==> turns[|counts|].cancelled
    {
      hide Oversteps, Accepted, AcceptedBy;
      NothingAccepted(turns, claimLimit, maxConcurrent);
      invalid, counts := false, [];
      ghost var first, mine := admitted, [];
      for t := 0 to |turns|
        invariant Valid() && !invalid && |counts| == t
        invariant forall k | 0 <= k < t :: counts[k] <= maxConcurrent && !turns[k].cancelled &&
                                           !Oversteps(turns[k], claimLimit, maxConcurrent, counts[k])
        invariant admitted == first + mine
        invariant multiset(mine) == AcceptedBy(turns, claimLimit, maxConcurrent, counts)
      {
        HandlersProgress();
        if turns[t].cancelled {
          break;
        }
        ghost var before, seen, count := admitted, counts, active;
        counts := counts + [active];
        invalid := TakeTurn(turns[t]);
        ghost var taken := admitted[|before|..];
        AcceptedSnoc(turns, claimLimit, maxConcurrent, seen, count, mine, taken);
        mine := mine + taken;
        assert admitted == before + taken;
        if invalid {
          break;
        }
      }
      Join();
      assert admitted[|first|..] == mine;
    }
  }
}
