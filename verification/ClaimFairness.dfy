/** The tenant-rank selection of a claim: bounded, and fair between tenants. */
module ClaimFairness {
  import opened Basics
  import opened Store
  import D = Definitions

  /** A strict total order on a finite set. */
  ghost predicate Orders(less: (Ident, Ident) -> bool, s: set<Ident>) {
    && (forall a | a in s :: !less(a, a))
    && (forall a, b | a in s && b in s && a != b :: less(a, b) || less(b, a))
    && (forall a, b, c | a in s && b in s && c in s && less(a, b) && less(b, c) :: less(a, c))
  }

  lemma {:induction false} Greatest(less: (Ident, Ident) -> bool, s: set<Ident>) returns (m: Ident)
    requires s != {} && Orders(less, s)
    ensures m in s && forall a | a in s && a != m :: less(a, m)
    decreases |s|
  {
    m :| m in s;
    var rest := s - {m};
    if rest != {} {
      var n := Greatest(less, rest);
      if less(m, n) {
        m := n;
      }
    }
  }

  /** The least element, by the mirrored order. */
  lemma Least(less: (Ident, Ident) -> bool, s: set<Ident>) returns (m: Ident)
    requires s != {} && Orders(less, s)
    ensures m in s && forall a | a in s && a != m :: less(m, a)
  {
    m := Greatest((a, b) => less(b, a), s);
  }

  /** Elements with fewer than `n` smaller ones are at most `n` many. */
  lemma FewBelow(less: (Ident, Ident) -> bool, all: set<Ident>, low: set<Ident>, n: nat)
    requires Orders(less, all) && low <= all
    requires forall a | a in low :: |set b | b in all && less(b, a)| < n
    ensures |low| <= n
  {
    if low != {} {
      var m := Greatest(less, low);
      var below := set b | b in all && less(b, m);
      assert low - {m} <= below;
      D.SubsetSize(low - {m}, below);
    }
  }

  /** Collation tells stored identities apart. */
  predicate TellsApart(db: Tables, c: Collation) {
    forall a, b | a in db.work && b in db.work && c(a) == c(b) :: a == b
  }

  function SoonerIn(db: Tables, c: Collation): (Ident, Ident) -> bool {
    (a, b) => a in db.work && b in db.work && Sooner(db, c, a, b)
  }

  function PrecedesIn(db: Tables, r: ClaimRequest): (Ident, Ident) -> bool {
    (a, b) => a in db.work && b in db.work && Precedes(db, r, a, b)
  }

  lemma SoonerOrders(db: Tables, c: Collation, s: set<Ident>)
    requires TellsApart(db, c) && s <= db.work.Keys
    ensures Orders(SoonerIn(db, c), s)
  {
  }

  lemma PrecedesOrders(db: Tables, r: ClaimRequest, s: set<Ident>)
    requires TellsApart(db, r.collation) && s <= db.work.Keys
    ensures Orders(PrecedesIn(db, r), s)
  {
    hide TenantRank;
  }

  /** A claim takes no more than it asks for. */
  lemma ClaimBounded(db: Tables, r: ClaimRequest)
    requires TellsApart(db, r.collation)
    ensures Chosen(db, r) <= Candidates(db, r.now) && |Chosen(db, r)| <= r.limit
  {
    hide Precedes;
    var all := Candidates(db, r.now);
    PrecedesOrders(db, r, all);
    forall a | a in Chosen(db, r) ensures |set b | b in all && PrecedesIn(db, r)(b, a)| < r.limit {
      assert (set b | b in all && PrecedesIn(db, r)(b, a)) == (set b | b in all && Precedes(db, r, b, a));
    }
    FewBelow(PrecedesIn(db, r), all, Chosen(db, r), r.limit);
  }

  /** Whatever precedes a chosen candidate is chosen. */
  lemma ChosenDownward(db: Tables, r: ClaimRequest, a: Ident, b: Ident)
    requires TellsApart(db, r.collation) && a in Candidates(db, r.now) && b in Chosen(db, r) && Precedes(db, r, a, b)
    ensures a in Chosen(db, r)
  {
    hide Precedes, TenantRank;
    var all := Candidates(db, r.now);
    PrecedesOrders(db, r, all);
    var belowA, belowB := set c | c in all && Precedes(db, r, c, a), set c | c in all && Precedes(db, r, c, b);
    forall c | c in belowA ensures c in belowB {
      assert PrecedesIn(db, r)(c, a) && PrecedesIn(db, r)(a, b);
      assert PrecedesIn(db, r)(c, b);
    }
    D.SubsetSize(belowA, belowB);
  }

  function TenantCandidates(db: Tables, now: Time, tenant: Ident): set<Ident> {
    set id | id in Candidates(db, now) && db.work[id].work.tenantID == tenant
  }

  function TenantChosen(db: Tables, r: ClaimRequest, tenant: Ident): set<Ident> {
    set id | id in Chosen(db, r) && db.work[id].work.tenantID == tenant
  }

  /** A chosen candidate's tenant rank is at most that of any candidate left out. */
  lemma ChosenRanksLower(db: Tables, r: ClaimRequest, x: Ident, y: Ident)
    requires TellsApart(db, r.collation) && x in Chosen(db, r) && y in Candidates(db, r.now) && y !in Chosen(db, r)
    ensures TenantRank(db, r, x) <= TenantRank(db, r, y)
  {
    hide TenantRank;
    if TenantRank(db, r, y) < TenantRank(db, r, x) {
      ChosenDownward(db, r, y, x);
    }
  }

  lemma RankInTenant(db: Tables, r: ClaimRequest, id: Ident, tenant: Ident)
    requires id in db.work && db.work[id].work.tenantID == tenant
    ensures TenantRank(db, r, id) == |set b | b in TenantCandidates(db, r.now, tenant) && SoonerIn(db, r.collation)(b, id)|
  {
    assert (set b | b in TenantCandidates(db, r.now, tenant) && SoonerIn(db, r.collation)(b, id)) ==
           (set other | other in Candidates(db, r.now) && db.work[other].work.tenantID == db.work[id].work.tenantID &&
                        Sooner(db, r.collation, other, id));
  }

  /** A tenant with a candidate left out got everything sooner than its first such candidate. */
  lemma FirstLeftOut(db: Tables, r: ClaimRequest, tenant: Ident) returns (y: Ident)
    requires TellsApart(db, r.collation)
    requires exists id :: id in TenantCandidates(db, r.now, tenant) && id !in Chosen(db, r)
    ensures y in TenantCandidates(db, r.now, tenant) && y !in Chosen(db, r)
    ensures TenantRank(db, r, y) <= |TenantChosen(db, r, tenant)|
  {
    hide Chosen, TenantRank, Candidates, Eligible;
    var left := TenantCandidates(db, r.now, tenant) - Chosen(db, r);
    var some :| some in TenantCandidates(db, r.now, tenant) && some !in Chosen(db, r);
    assert some in left;
    CandidatesStored(db, r.now);
    SoonerOrders(db, r.collation, left);
    y := Least(SoonerIn(db, r.collation), left);
    RankInTenant(db, r, y, tenant);
    var sooner := set b | b in TenantCandidates(db, r.now, tenant) && SoonerIn(db, r.collation)(b, y);
    SoonerOrders(db, r.collation, TenantCandidates(db, r.now, tenant));
    forall b | b in sooner ensures b in TenantChosen(db, r, tenant) {
      assert b in left ==> b == y || SoonerIn(db, r.collation)(y, b);
    }
    D.SubsetSize(sooner, TenantChosen(db, r, tenant));
  }

  lemma CandidatesStored(db: Tables, now: Time)
    ensures Candidates(db, now) <= db.work.Keys
  {
  }

  /**
   * Fairness of one claim: while some tenant still has a candidate left out, no
   * other tenant is served more than one item more than it.
   */
  lemma ClaimIsFair(db: Tables, r: ClaimRequest, served: Ident, waiting: Ident)
    requires TellsApart(db, r.collation)
    requires exists id :: id in TenantCandidates(db, r.now, waiting) && id !in Chosen(db, r)
    ensures |TenantChosen(db, r, served)| <= |TenantChosen(db, r, waiting)| + 1
  {
    hide TenantRank, Eligible, Precedes;
    var y := FirstLeftOut(db, r, waiting);
    var all := TenantCandidates(db, r.now, served);
    SoonerOrders(db, r.collation, all);
    forall x | x in TenantChosen(db, r, served)
      ensures |set b | b in all && SoonerIn(db, r.collation)(b, x)| < TenantRank(db, r, y) + 1
    {
      ChosenRanksLower(db, r, x, y);
      RankInTenant(db, r, x, served);
    }
    FewBelow(SoonerIn(db, r.collation), all, TenantChosen(db, r, served), TenantRank(db, r, y) + 1);
  }

  // --- nothing is left over -----------------------------------------------

  ghost function Below(less: (Ident, Ident) -> bool, all: set<Ident>, a: Ident): set<Ident> {
    set b | b in all && less(b, a)
  }

  ghost function Lowest(less: (Ident, Ident) -> bool, all: set<Ident>, n: nat): set<Ident> {
    set a | a in all && |Below(less, all, a)| < n
  }

  /** Taking the greatest element away changes nothing for the others. */
  lemma WithoutGreatest(less: (Ident, Ident) -> bool, all: set<Ident>, m: Ident, n: nat)
    requires Orders(less, all) && m in all && forall a | a in all && a != m :: less(a, m)
    ensures Lowest(less, all, n) == Lowest(less, all - {m}, n) + if |all - {m}| < n then {m} else {}
  {
    var rest := all - {m};
    assert Below(less, all, m) == rest;
    forall a | a in rest ensures Below(less, all, a) == Below(less, rest, a) {
      assert less(a, m) && !less(a, a);
    }
  }

  /** Elements with fewer than `n` smaller ones: `n` of them, or all there are. */
  lemma {:induction false} LowestCount(less: (Ident, Ident) -> bool, all: set<Ident>, n: nat)
    requires Orders(less, all)
    ensures |Lowest(less, all, n)| == Min(n, |all|)
    decreases |all|
  {
    if all == {} {
      assert Lowest(less, all, n) == {};
    } else {
      var m := Greatest(less, all);
      LowestCount(less, all - {m}, n);
      WithoutGreatest(less, all, m, n);
    }
  }

  /** A claim takes every candidate, or as many as it asks for. */
  lemma ClaimTakesAllItCan(db: Tables, r: ClaimRequest)
    requires TellsApart(db, r.collation)
    ensures |Chosen(db, r)| == Min(r.limit, |Candidates(db, r.now)|)
  {
    hide Precedes, Candidates;
    var all := Candidates(db, r.now);
    CandidatesStored(db, r.now);
    PrecedesOrders(db, r, all);
    forall a | a in all ensures Below(PrecedesIn(db, r), all, a) == set b | b in all && Precedes(db, r, b, a) {
    }
    assert Chosen(db, r) == Lowest(PrecedesIn(db, r), all, r.limit);
    LowestCount(PrecedesIn(db, r), all, r.limit);
  }

  /** A candidate is left out only when the claim is full. */
  lemma LeftOutOnlyWhenFull(db: Tables, r: ClaimRequest, id: Ident)
    requires TellsApart(db, r.collation) && id in Candidates(db, r.now) && id !in Chosen(db, r)
    ensures |Chosen(db, r)| == r.limit
  {
    hide Precedes;
    ClaimTakesAllItCan(db, r);
    if |Chosen(db, r)| == |Candidates(db, r.now)| {
      SameSize(Chosen(db, r), Candidates(db, r.now));
    }
  }

  lemma SameSize(part: set<Ident>, whole: set<Ident>)
    requires part <= whole && |part| == |whole|
    ensures part == whole
  {
    if part != whole {
      var x :| x in whole && x !in part;
      D.SubsetSize(part, whole - {x});
    }
  }

  /** Available earlier, or at the same time and collated first. */
  predicate Earlier(db: Tables, c: Collation, a: Ident, b: Ident)
    requires a in db.work && b in db.work
  {
    db.work[a].work.availableAt < db.work[b].work.availableAt ||
    (db.work[a].work.availableAt == db.work[b].work.availableAt && c(a) < c(b))
  }

  /** Within a tenant, what became available earlier is taken first. */
  lemma EarlierTakenFirst(db: Tables, r: ClaimRequest, a: Ident, b: Ident)
    requires TellsApart(db, r.collation) && a in Candidates(db, r.now) && b in Chosen(db, r)
    requires a in db.work && b in db.work
    requires db.work[a].work.tenantID == db.work[b].work.tenantID && Earlier(db, r.collation, a, b)
    ensures a in Chosen(db, r)
  {
    hide Candidates, TenantRank;
    CandidatesStored(db, r.now);
    RanksBefore(db, r, a, b);
    ChosenDownward(db, r, a, b);
  }

  lemma RanksBefore(db: Tables, r: ClaimRequest, a: Ident, b: Ident)
    requires TellsApart(db, r.collation) && a in Candidates(db, r.now) && b in Candidates(db, r.now)
    requires a in db.work && b in db.work
    requires db.work[a].work.tenantID == db.work[b].work.tenantID && Earlier(db, r.collation, a, b)
    ensures TenantRank(db, r, a) < TenantRank(db, r, b)
  {
    hide Candidates, TenantRank;
    CandidatesStored(db, r.now);
    var tenant := db.work[a].work.tenantID;
    RankInTenant(db, r, a, tenant);
    RankInTenant(db, r, b, tenant);
    var all, less := TenantCandidates(db, r.now, tenant), SoonerIn(db, r.collation);
    SoonerOrders(db, r.collation, all);
    var belowA, belowB := set c | c in all && less(c, a), set c | c in all && less(c, b);
    forall c | c in belowA ensures c in belowB {
      assert less(c, a) && less(a, b);
    }
    assert a in belowB && a !in belowA;
    D.SubsetSize(belowA, belowB - {a});
  }

  /** How many candidates of the same tenant became available earlier. */
  function Ahead(db: Tables, r: ClaimRequest, id: Ident): nat
    requires id in db.work
  {
    |set other | other in Candidates(db, r.now) && db.work[other].work.tenantID == db.work[id].work.tenantID &&
                 Earlier(db, r.collation, other, id)|
  }

  /** Across tenants, items go by how many of their own tenant are ahead of them, and then by availability. */
  lemma RoundsTakenInOrder(db: Tables, r: ClaimRequest, a: Ident, b: Ident)
    requires TellsApart(db, r.collation) && a in Candidates(db, r.now) && b in Chosen(db, r) && a in db.work && b in db.work
    requires Ahead(db, r, a) < Ahead(db, r, b) ||
             (Ahead(db, r, a) == Ahead(db, r, b) && Earlier(db, r.collation, a, b))
    ensures a in Chosen(db, r)
  {
    AheadIsRank(db, r, a);
    AheadIsRank(db, r, b);
    hide Ahead, TenantRank, Candidates;
    ChosenDownward(db, r, a, b);
  }

  lemma AheadIsRank(db: Tables, r: ClaimRequest, id: Ident)
    requires id in db.work
    ensures Ahead(db, r, id) == TenantRank(db, r, id)
  {
    assert (set other | other in Candidates(db, r.now) && db.work[other].work.tenantID == db.work[id].work.tenantID &&
                        Earlier(db, r.collation, other, id)) ==
           (set other | other in Candidates(db, r.now) && db.work[other].work.tenantID == db.work[id].work.tenantID &&
                        Sooner(db, r.collation, other, id));
  }
}
