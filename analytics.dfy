/** `AnalyticsService` (web/backend/app/functions/analytics_service.py): the
    sales, claims, financial and dashboard reports. Each report selects the
    rows of a date window and accumulates them into per-key entries of a
    dictionary, which is then sorted. The accumulation is one loop
    (`Accumulate`) proved against the reference tally `Tally`, whose entries
    are exact per-key counts and sums. */
module Analytics {
  import opened Common
  import opened Models
  import opened Store
  import ClaimService
  import opened Calendar

  // ---------------------------------------------------------------------------
  // Per-key accumulators

  /** One value of a `{key: {'count': n, 'premium': total}}` dictionary. */
  datatype Group = Group(key: int, count: nat, total: int)

  function GroupKey(g: Group): int { g.key }
  function GroupCount(g: Group): int { g.count }
  function GroupTotal(g: Group): int { g.total }

  /** A row whose key is `k`. */
  function HasKey<T>(key: T -> int, k: int): T -> bool {
    (x: T) => key(x) == k
  }

  /** `key in groups`: the position of the entry for `key`. */
  function GroupIndex(groups: seq<Group>, key: int): (r: Option<nat>)
    ensures r.Some? ==> r.value < |groups| && groups[r.value].key == key
    ensures r.None? <==> key !in Keys(groups, GroupKey)
  {
    FirstIndex(groups, (g: Group) => g.key == key)
  }

  /** `groups[k]`, or an empty entry when `k` has none. */
  function Lookup(groups: seq<Group>, k: int): (r: Group)
    ensures k !in Keys(groups, GroupKey) ==> r == Group(k, 0, 0)
    ensures DistinctKeys(groups, GroupKey) ==> forall j :: 0 <= j < |groups| && groups[j].key == k ==> r == groups[j]
  {
    match GroupIndex(groups, k)
    case Some(i) => groups[i]
    case None => Group(k, 0, 0)
  }

  /** One iteration of an accumulating loop: bump the entry of `key`, or add a
      new entry after the others (a dict keeps insertion order). */
  function AddTo(groups: seq<Group>, key: int, amount: int): (r: seq<Group>)
    ensures Keys(r, GroupKey) == Keys(groups, GroupKey) + {key}
    ensures DistinctKeys(groups, GroupKey) ==> DistinctKeys(r, GroupKey)
    ensures Sum(r, GroupCount) == Sum(groups, GroupCount) + 1
    ensures Sum(r, GroupTotal) == Sum(groups, GroupTotal) + amount
  {
    match GroupIndex(groups, key)
    case Some(i) =>
      var g := Group(key, groups[i].count + 1, groups[i].total + amount);
      KeysUpdate(groups, GroupKey, i, g);
      SumUpdate(groups, GroupCount, i, g);
      SumUpdate(groups, GroupTotal, i, g);
      groups[i := g]
    case None =>
      var g := Group(key, 1, amount);
      KeysAppend(groups, GroupKey, g);
      assert (groups + [g])[..|groups|] == groups;
      groups + [g]
  }

  lemma AddToShape(groups: seq<Group>, key: int, amount: int)
    ensures var at := GroupIndex(groups, key);
      && (at.Some? ==> AddTo(groups, key, amount) == groups[at.value := Group(key, groups[at.value].count + 1, groups[at.value].total + amount)])
      && (at.None? ==> AddTo(groups, key, amount) == groups + [Group(key, 1, amount)])
  {
  }

  /** Adding a row changes the entry of its own key only. */
  lemma AddToLookup(groups: seq<Group>, key: int, amount: int, k: int)
    requires DistinctKeys(groups, GroupKey)
    ensures var before := Lookup(groups, k);
      Lookup(AddTo(groups, key, amount), k) ==
        if k == key then Group(k, before.count + 1, before.total + amount) else before
  {
    var r := AddTo(groups, key, amount);
    if k in Keys(groups, GroupKey) {
      var j :| 0 <= j < |groups| && groups[j].key == k;
      assert r[j].key == k;
    } else if k == key {
      assert r[|r| - 1].key == k;
    }
  }

  /** The dictionary an accumulating loop over `s` builds: one entry per
      distinct key, in order of first appearance. */
  function Tally<T>(s: seq<T>, key: T -> int, amount: T -> int): (r: seq<Group>)
    ensures DistinctKeys(r, GroupKey)
    ensures Keys(r, GroupKey) == Keys(s, key)
    ensures Sum(r, GroupCount) == |s|
    ensures Sum(r, GroupTotal) == Sum(s, amount)
  {
    if |s| == 0 then []
    else
      var init := s[..|s| - 1];
      KeysAppend(init, key, s[|s| - 1]);
      assert init + [s[|s| - 1]] == s;
      AddTo(Tally(init, key, amount), key(s[|s| - 1]), amount(s[|s| - 1]))
  }

  /** Each entry holds exactly the number of rows with its key and the sum of
      their amounts. */
  lemma {:induction false} TallyExact<T>(s: seq<T>, key: T -> int, amount: T -> int, k: int)
    ensures Lookup(Tally(s, key, amount), k) == Group(k, Count(s, HasKey(key, k)), Sum(Filter(s, HasKey(key, k)), amount))
  {
    if |s| > 0 {
      var init := s[..|s| - 1];
      var last := s[|s| - 1];
      TallyExact(init, key, amount, k);
      AddToLookup(Tally(init, key, amount), key(last), amount(last), k);
      FilterLast(s, HasKey(key, k), amount);
    } else {
      CountPositive(s, HasKey(key, k));
    }
  }

  /** How a count and a filtered sum grow with the last row. */
  lemma FilterLast<T>(s: seq<T>, p: T -> bool, amount: T -> int)
    requires |s| > 0
    ensures var init := s[..|s| - 1]; var last := s[|s| - 1];
      && Count(s, p) == Count(init, p) + (if p(last) then 1 else 0)
      && Sum(Filter(s, p), amount) == Sum(Filter(init, p), amount) + (if p(last) then amount(last) else 0)
  {
    var before := Filter(s[..|s| - 1], p);
    if p(s[|s| - 1]) {
      assert (before + [s[|s| - 1]])[..|before|] == before;
    } else {
      assert before + [] == before;
    }
  }

  lemma TallySnoc<T>(s: seq<T>, key: T -> int, amount: T -> int, i: nat)
    requires i < |s|
    ensures Tally(s[..i + 1], key, amount) == AddTo(Tally(s[..i], key, amount), key(s[i]), amount(s[i]))
  {
    assert s[..i + 1][..i] == s[..i];
  }

  /** The body of an accumulating loop: `if key in d: d[key]['count'] += 1
      ... else: d[key] = {...}`. */
  method Bump(groups: seq<Group>, key: int, amount: int) returns (r: seq<Group>)
    ensures r == AddTo(groups, key, amount)
  {
    AddToShape(groups, key, amount);
    var at := GroupIndex(groups, key);
    if at.Some? {
      var g := groups[at.value];
      r := groups[at.value := Group(g.key, g.count + 1, g.total + amount)];
    } else {
      r := groups + [Group(key, 1, amount)];
    }
  }

  /** The accumulating `for` loop of the reports. */
  method Accumulate<T>(s: seq<T>, key: T -> int, amount: T -> int) returns (groups: seq<Group>)
    ensures groups == Tally(s, key, amount)
  {
    groups := [];
    var i := 0;
    while i < |s|
      invariant 0 <= i <= |s|
      invariant groups == Tally(s[..i], key, amount)
    {
      groups := Bump(groups, key(s[i]), amount(s[i]));
      TallySnoc(s, key, amount, i);
      i := i + 1;
    }
    assert s[..|s|] == s;
  }

  // ---------------------------------------------------------------------------
  // `sorted(..., key=rank, reverse=True)`

  predicate NonIncreasing(r: seq<Group>, rank: Group -> int) {
    forall i, j :: 0 <= i < j < |r| ==> rank(r[i]) >= rank(r[j])
  }

  /** The number of leading entries ranked at least as high as `x`. */
  function Position(sorted: seq<Group>, x: Group, rank: Group -> int): (p: nat)
    requires NonIncreasing(sorted, rank)
    ensures p <= |sorted|
    ensures forall k :: 0 <= k < p ==> rank(sorted[k]) >= rank(x)
    ensures forall k :: p <= k < |sorted| ==> rank(sorted[k]) < rank(x)
  {
    if |sorted| == 0 then 0
    else if rank(sorted[|sorted| - 1]) >= rank(x) then |sorted|
    else Position(sorted[..|sorted| - 1], x, rank)
  }

  /** Places `x` after every entry ranked at least as high, so entries of
      equal rank keep their order. */
  function Insert(sorted: seq<Group>, x: Group, rank: Group -> int): (r: seq<Group>)
    requires NonIncreasing(sorted, rank)
    ensures NonIncreasing(r, rank)
    ensures multiset(r) == multiset(sorted) + multiset{x}
  {
    var p := Position(sorted, x, rank);
    SpliceSorted(sorted, x, rank, p);
    sorted[..p] + [x] + sorted[p..]
  }

  /** Putting `x` between the entries ranked at least as high and those
      ranked lower keeps the order and adds `x` to the entries. */
  lemma SpliceSorted(sorted: seq<Group>, x: Group, rank: Group -> int, p: nat)
    requires NonIncreasing(sorted, rank) && p <= |sorted|
    requires forall k :: 0 <= k < p ==> rank(sorted[k]) >= rank(x)
    requires forall k :: p <= k < |sorted| ==> rank(sorted[k]) < rank(x)
    ensures NonIncreasing(sorted[..p] + [x] + sorted[p..], rank)
    ensures multiset(sorted[..p] + [x] + sorted[p..]) == multiset(sorted) + multiset{x}
  {
    var r := sorted[..p] + [x] + sorted[p..];
    assert sorted[..p] + sorted[p..] == sorted;
    assert forall k :: 0 <= k < |r| ==> r[k] == if k < p then sorted[k] else if k == p then x else sorted[k - 1];
  }

  /** Inserting adds the key and the total of `x` to the sorted entries. */
  lemma InsertKeysAndTotal(sorted: seq<Group>, x: Group, rank: Group -> int)
    requires NonIncreasing(sorted, rank)
    ensures Keys(Insert(sorted, x, rank), GroupKey) == Keys(sorted, GroupKey) + {x.key}
    ensures DistinctKeys(sorted, GroupKey) && x.key !in Keys(sorted, GroupKey) ==> DistinctKeys(Insert(sorted, x, rank), GroupKey)
    ensures Sum(Insert(sorted, x, rank), GroupTotal) == Sum(sorted, GroupTotal) + x.total
  {
    var p := Position(sorted, x, rank);
    var a, b := sorted[..p], sorted[p..];
    assert Insert(sorted, x, rank) == a + [x] + b;
    assert a + b == sorted;
    KeysSplice(a, x, b);
    SpliceTotal(a, x, b);
    if DistinctKeys(sorted, GroupKey) && x.key !in Keys(sorted, GroupKey) {
      SpliceDistinct(a, x, b);
    }
  }

  lemma SpliceTotal(a: seq<Group>, x: Group, b: seq<Group>)
    ensures Sum(a + [x] + b, GroupTotal) == Sum(a + b, GroupTotal) + x.total
  {
    SumConcat(a + [x], b, GroupTotal);
    SumConcat(a, b, GroupTotal);
    SumConcat(a, [x], GroupTotal);
  }

  lemma SpliceDistinct(a: seq<Group>, x: Group, b: seq<Group>)
    requires DistinctKeys(a + b, GroupKey) && x.key !in Keys(a + b, GroupKey)
    ensures DistinctKeys(a + [x] + b, GroupKey)
  {
    var r, s, p := a + [x] + b, a + b, |a|;
    forall i, j | 0 <= i < j < |r| ensures r[i].key != r[j].key {
      var si := if i < p then i else i - 1;
      var sj := if j < p then j else j - 1;
      if i == p {
        assert r[j] == s[sj];
      } else if j == p {
        assert r[i] == s[si];
      } else {
        assert r[i] == s[si] && r[j] == s[sj] && si < sj;
      }
    }
  }

  lemma KeysSplice(a: seq<Group>, x: Group, b: seq<Group>)
    ensures Keys(a + [x] + b, GroupKey) == Keys(a + b, GroupKey) + {x.key}
  {
    var r := a + [x] + b;
    var s := a + b;
    assert r[|a|] == x;
    forall v | v in Keys(r, GroupKey) ensures v in Keys(s, GroupKey) + {x.key} {
      var k :| 0 <= k < |r| && r[k].key == v;
      if k < |a| { assert s[k] == r[k]; } else if k > |a| { assert s[k - 1] == r[k]; }
    }
    forall v | v in Keys(s, GroupKey) ensures v in Keys(r, GroupKey) {
      var k :| 0 <= k < |s| && s[k].key == v;
      if k < |a| { assert r[k] == s[k]; } else { assert r[k + 1] == s[k]; }
    }
  }

  /** Python's stable `sorted(s, key=rank, reverse=True)`, as insertion sort. */
  function SortDesc(s: seq<Group>, rank: Group -> int): (r: seq<Group>)
    ensures NonIncreasing(r, rank)
    ensures multiset(r) == multiset(s)
    ensures Keys(r, GroupKey) == Keys(s, GroupKey)
    ensures DistinctKeys(s, GroupKey) ==> DistinctKeys(r, GroupKey)
    ensures Sum(r, GroupTotal) == Sum(s, GroupTotal)
  {
    if |s| == 0 then []
    else
      var init := s[..|s| - 1];
      var last := s[|s| - 1];
      KeysAppend(init, GroupKey, last);
      assert init + [last] == s;
      InsertKeysAndTotal(SortDesc(init, rank), last, rank);
      Insert(SortDesc(init, rank), last, rank)
  }

  function RankIs(rank: Group -> int, v: int): Group -> bool {
    g => rank(g) == v
  }

  /** `sorted` is stable: the entries of any one rank come out in the order
      they went in, so ties keep the dictionary's order. */
  lemma {:induction false} SortDescStable(s: seq<Group>, rank: Group -> int, v: int)
    ensures Filter(SortDesc(s, rank), RankIs(rank, v)) == Filter(s, RankIs(rank, v))
  {
    if |s| > 0 {
      var init, last := s[..|s| - 1], s[|s| - 1];
      SortDescStable(init, rank, v);
      InsertStable(SortDesc(init, rank), last, rank, v);
    }
  }

  /** Inserting `x` appends it to the entries of its own rank and leaves the
      others as they were. */
  lemma InsertStable(sorted: seq<Group>, x: Group, rank: Group -> int, v: int)
    requires NonIncreasing(sorted, rank)
    ensures Filter(Insert(sorted, x, rank), RankIs(rank, v))
            == Filter(sorted, RankIs(rank, v)) + (if rank(x) == v then [x] else [])
  {
    var p := Position(sorted, x, rank);
    var a, b := sorted[..p], sorted[p..];
    assert Insert(sorted, x, rank) == a + [x] + b;
    assert a + b == sorted;
    if rank(x) == v {
      forall k | 0 <= k < |b|
        ensures rank(b[k]) != v
      {
        assert b[k] == sorted[p + k];
      }
    }
    SpliceFilter(a, x, b, RankIs(rank, v));
  }

  lemma {:induction false} SpliceFilter(a: seq<Group>, x: Group, b: seq<Group>, f: Group -> bool)
    requires f(x) ==> forall k :: 0 <= k < |b| ==> !f(b[k])
    ensures Filter(a + [x] + b, f) == Filter(a + b, f) + (if f(x) then [x] else [])
    decreases |b|
  {
    if |b| == 0 {
      assert a + [x] + b == a + [x] && a + b == a;
      assert (a + [x])[..|a|] == a;
    } else {
      var b', y := b[..|b| - 1], b[|b| - 1];
      SpliceFilter(a, x, b', f);
      assert (a + [x] + b)[..|a + [x] + b| - 1] == a + [x] + b';
      assert (a + b)[..|a + b| - 1] == a + b';
    }
  }

  lemma {:induction false} NoneRanked(b: seq<Group>, f: Group -> bool)
    requires forall k :: 0 <= k < |b| ==> !f(b[k])
    ensures Filter(b, f) == []
  {
    if |b| > 0 {
      NoneRanked(b[..|b| - 1], f);
    }
  }

  /** A sorted entry is an entry of the dictionary, with its exact count and
      total. */
  lemma SortedEntryExact<T>(s: seq<T>, key: T -> int, amount: T -> int, rank: Group -> int, g: Group)
    requires g in multiset(SortDesc(Tally(s, key, amount), rank))
    ensures g in Tally(s, key, amount)
    ensures g.count == Count(s, HasKey(key, g.key)) && g.total == Sum(Filter(s, HasKey(key, g.key)), amount)
  {
    var t := Tally(s, key, amount);
    var sorted := SortDesc(t, rank);
    assert multiset(sorted) == multiset(t);
    assert g in t;
    var j :| 0 <= j < |t| && t[j] == g;
    TallyExact(s, key, amount, g.key);
    assert Lookup(t, g.key) == g;
  }

  // ---------------------------------------------------------------------------
  // Date windows and month keys

  /** `created_at >= start_date AND created_at <= end_date`: the dates are
      promoted to midnight, so rows later on the end date fall outside. */
  predicate InWindow(t: int, start: int, end: int) {
    Midnight(start) <= t <= Midnight(end)
  }

  function ContractsInWindow(contracts: seq<Contract>, start: int, end: int): seq<Contract> {
    Filter(contracts, (c: Contract) => InWindow(c.createdAt, start, end))
  }

  function ClaimsInWindow(claims: seq<Claim>, start: int, end: int): seq<Claim> {
    Filter(claims, (c: Claim) => InWindow(c.createdAt, start, end))
  }

  /** `created_at.strftime('%Y-%m')`, as the number YYYYMM. */
  function MonthKey(t: int): int {
    var d := CivilFromDays(t / SecondsPerDay);
    d.year * 100 + d.month
  }

  // ---------------------------------------------------------------------------
  // Row keys and amounts the reports group by

  function ProductOf(c: Contract): int { c.productId }
  function AgentOf(c: Contract): int { c.agentId }
  function MonthOf(c: Contract): int { MonthKey(c.createdAt) }
  function AdjusterOf(c: Claim): int { c.adjusterId.GetOr(0) }

  /** `if claim.adjuster_id:`. */
  predicate HasAdjuster(c: Claim) { Truthy(c.adjusterId) }

  /** `contract.product.name if contract.product else 'Unknown'`. */
  function ProductName(products: seq<Product>, productId: int): string {
    match ProductIndex(products, productId)
    case Some(i) => products[i].name
    case None => "Unknown"
  }

  // ---------------------------------------------------------------------------
  // Sales

  datatype ProductSales = ProductSales(productId: int, count: nat, premium: int, productName: string)

  datatype SalesMetrics = SalesMetrics(
    totalContracts: nat,
    totalPremium: int,
    averagePremium: real,
    conversionRate: real,
    topProducts: seq<ProductSales>,
    salesByAgent: seq<Group>)

  function Named(products: seq<Product>, groups: seq<Group>): (r: seq<ProductSales>)
    ensures |r| == |groups|
    ensures forall k :: 0 <= k < |r| ==> r[k] == ProductSales(groups[k].key, groups[k].count, groups[k].total, ProductName(products, groups[k].key))
  {
    seq(|groups|, k requires 0 <= k < |groups| => ProductSales(groups[k].key, groups[k].count, groups[k].total, ProductName(products, groups[k].key)))
  }

  /** `sorted(product_sales.values(), key=premium, reverse=True)[:5]`. */
  function TopProducts(window: seq<Contract>): seq<Group> {
    Page(SortDesc(Tally(window, ProductOf, PremiumOf), GroupTotal), 0, 5)
  }

  /** The product entries partition the window: their counts add up to the
      number of contracts and their premiums to the total premium. */
  lemma ProductSalesPartition(window: seq<Contract>)
    ensures Sum(Tally(window, ProductOf, PremiumOf), GroupCount) == |window|
    ensures Sum(Tally(window, ProductOf, PremiumOf), GroupTotal) == Sum(window, PremiumOf)
    ensures Keys(Tally(window, ProductOf, PremiumOf), GroupKey) == Keys(window, ProductOf)
  {
  }

  /** At most five entries, highest premium first, each the exact entry of a
      product sold in the window. */
  lemma TopProductsFacts(window: seq<Contract>)
    ensures |TopProducts(window)| <= 5
    ensures NonIncreasing(TopProducts(window), GroupTotal)
    ensures DistinctKeys(TopProducts(window), GroupKey)
    ensures forall k :: 0 <= k < |TopProducts(window)| ==>
              var g := TopProducts(window)[k];
              && g in Tally(window, ProductOf, PremiumOf)
              && g.count == Count(window, HasKey(ProductOf, g.key))
              && g.total == Sum(Filter(window, HasKey(ProductOf, g.key)), PremiumOf)
  {
    var sorted := SortDesc(Tally(window, ProductOf, PremiumOf), GroupTotal);
    var top := TopProducts(window);
    forall k | 0 <= k < |top|
      ensures top[k] in Tally(window, ProductOf, PremiumOf)
      ensures top[k].count == Count(window, HasKey(ProductOf, top[k].key))
      ensures top[k].total == Sum(Filter(window, HasKey(ProductOf, top[k].key)), PremiumOf)
    {
      assert top[k] == sorted[k];
      SortedEntryExact(window, ProductOf, PremiumOf, GroupTotal, top[k]);
    }
  }

  /** One entry per distinct agent, highest premium first, each with the
      agent's exact count and premium. */
  lemma SalesByAgentFacts(window: seq<Contract>, g: Group)
    ensures var agents := SortDesc(Tally(window, AgentOf, PremiumOf), GroupTotal);
      && NonIncreasing(agents, GroupTotal)
      && DistinctKeys(agents, GroupKey)
      && Keys(agents, GroupKey) == Keys(window, AgentOf)
      && (g in agents ==> g.count == Count(window, HasKey(AgentOf, g.key))
                          && g.total == Sum(Filter(window, HasKey(AgentOf, g.key)), PremiumOf))
  {
    var agents := SortDesc(Tally(window, AgentOf, PremiumOf), GroupTotal);
    if g in agents {
      SortedEntryExact(window, AgentOf, PremiumOf, GroupTotal, g);
    }
  }

  /** `get_sales_analytics`. */
  method GetSalesAnalytics(contracts: seq<Contract>, products: seq<Product>, start: int, end: int) returns (m: SalesMetrics)
    ensures var window := ContractsInWindow(contracts, start, end);
      && m.totalContracts == |window|
      && m.totalPremium == Sum(window, PremiumOf)
      && m.averagePremium == Ratio(m.totalPremium, |window|)
      && m.conversionRate == Ratio(ContractsWithStatus(window, Active), |window|)
      && m.topProducts == Named(products, TopProducts(window))
      && m.salesByAgent == SortDesc(Tally(window, AgentOf, PremiumOf), GroupTotal)
    ensures m.totalContracts == 0 ==> m.averagePremium == 0.0 && m.conversionRate == 0.0
    ensures m.conversionRate <= 1.0
  {
    var window := ContractsInWindow(contracts, start, end);
    var total := Sum(window, PremiumOf);
    var active := ContractsWithStatus(window, Active);
    ClaimService.RatioAtMostOne(active, |window|);
    var productSales := Accumulate(window, ProductOf, PremiumOf);
    var agentSales := Accumulate(window, AgentOf, PremiumOf);
    var top := Page(SortDesc(productSales, GroupTotal), 0, 5);
    m := SalesMetrics(|window|, total, Ratio(total, |window|), Ratio(active, |window|),
                      Named(products, top), SortDesc(agentSales, GroupTotal));
  }

  // ---------------------------------------------------------------------------
  // Claims

  datatype StatusCount = StatusCount(status: string, count: nat)

  function StatusCountOf(s: StatusCount): int { s.count }

  /** `{status.value: len([c for c in claims if c.status == status]) for status in ClaimStatus}`. */
  function ClaimsByStatus(claims: seq<Claim>): (r: seq<StatusCount>)
    ensures |r| == |AllClaimStatuses|
    ensures forall k :: 0 <= k < |r| ==> r[k] == StatusCount(ClaimStatusValue(AllClaimStatuses[k]), ClaimsWithStatus(claims, AllClaimStatuses[k]))
  {
    seq(|AllClaimStatuses|, k requires 0 <= k < |AllClaimStatuses| =>
      StatusCount(ClaimStatusValue(AllClaimStatuses[k]), ClaimsWithStatus(claims, AllClaimStatuses[k])))
  }

  /** Every status has an entry, and the entries add up to the number of claims. */
  lemma ClaimsByStatusSum(claims: seq<Claim>)
    ensures forall s: ClaimStatus :: exists k :: 0 <= k < |ClaimsByStatus(claims)| && ClaimsByStatus(claims)[k].status == ClaimStatusValue(s)
    ensures Sum(ClaimsByStatus(claims), StatusCountOf) == |claims|
  {
    var r := ClaimsByStatus(claims);
    assert r[0].status == ClaimStatusValue(Submitted) && r[1].status == ClaimStatusValue(UnderReview);
    assert r[2].status == ClaimStatusValue(Approved) && r[3].status == ClaimStatusValue(Rejected);
    assert r[4].status == ClaimStatusValue(Paid);
    var f := StatusCountOf;
    assert r[..4][..3] == r[..3] && r[..3][..2] == r[..2] && r[..2][..1] == r[..1] && r[..1][..0] == [];
    assert Sum(r[..1], f) == f(r[0]);
    assert Sum(r[..2], f) == Sum(r[..1], f) + f(r[1]);
    assert Sum(r[..3], f) == Sum(r[..2], f) + f(r[2]);
    assert Sum(r[..4], f) == Sum(r[..3], f) + f(r[3]);
    assert Sum(r, f) == Sum(r[..4], f) + f(r[4]);
    ClaimStatusCountsSum(claims);
  }

  datatype ClaimsMetrics = ClaimsMetrics(
    totalClaims: nat,
    totalClaimedAmount: int,
    totalApprovedAmount: int,
    averageClaimAmount: real,
    approvalRate: real,
    claimsByStatus: seq<StatusCount>,
    claimsByAdjuster: seq<Group>)

  /** `get_claims_analytics` as written: line 89 reads `c.claim_amount`, which
      names no column of Claim, so the report raises AttributeError for every
      window that holds a claim; only an empty window gives a result. */
  function ClaimsAnalyticsAsWritten(claims: seq<Claim>, start: int, end: int): (r: Outcome<ClaimsMetrics>)
    ensures r.Raises? <==> exists k :: 0 <= k < |claims| && InWindow(claims[k].createdAt, start, end)
    ensures r.Done? ==> r.value.totalClaims == 0 && r.value.claimsByAdjuster == []
  {
    var window := ClaimsInWindow(claims, start, end);
    CountPositive(claims, (c: Claim) => InWindow(c.createdAt, start, end));
    if |window| > 0 then Raises("AttributeError: 'Claim' object has no attribute 'claim_amount'")
    else Done(ClaimsMetrics(0, 0, 0, 0.0, 0.0, ClaimsByStatus(window), []))
  }

  /** `get_claims_analytics` summing `claimed_amount`, as the report intends. */
  method GetClaimsAnalytics(claims: seq<Claim>, start: int, end: int) returns (m: ClaimsMetrics)
    ensures var window := ClaimsInWindow(claims, start, end);
      && m.totalClaims == |window|
      && m.totalClaimedAmount == Sum(window, ClaimService.ClaimedOrZero)
      && m.totalApprovedAmount == Sum(window, ClaimService.ApprovedOrZero)
      && m.averageClaimAmount == Ratio(m.totalClaimedAmount, |window|)
      && m.approvalRate == Ratio(ClaimsWithStatus(window, Approved), |window|)
      && m.claimsByStatus == ClaimsByStatus(window)
      && m.claimsByAdjuster == Tally(Filter(window, HasAdjuster), AdjusterOf, ClaimService.ClaimedOrZero)
    ensures m.totalClaims == 0 ==> m.averageClaimAmount == 0.0 && m.approvalRate == 0.0
    ensures m.approvalRate <= 1.0
  {
    var window := ClaimsInWindow(claims, start, end);
    var claimed := Sum(window, ClaimService.ClaimedOrZero);
    var approved := Sum(Filter(window, (c: Claim) => AmountTruthy(c.approvedAmount)), ClaimService.ApprovedOrZero);
    ClaimService.SumSkippingFalsy(window);
    var approvedCount := ClaimsWithStatus(window, Approved);
    ClaimService.RatioAtMostOne(approvedCount, |window|);
    var adjusters := Accumulate(Filter(window, HasAdjuster), AdjusterOf, ClaimService.ClaimedOrZero);
    m := ClaimsMetrics(|window|, claimed, approved, Ratio(claimed, |window|), Ratio(approvedCount, |window|),
                       ClaimsByStatus(window), adjusters);
  }

  /** The adjuster entries count exactly the claims that have an adjuster,
      one entry per adjuster. */
  lemma ClaimsByAdjusterFacts(window: seq<Claim>)
    ensures var handled := Filter(window, HasAdjuster);
      var t := Tally(handled, AdjusterOf, ClaimService.ClaimedOrZero);
      && Sum(t, GroupCount) == Count(window, HasAdjuster)
      && DistinctKeys(t, GroupKey)
      && Keys(t, GroupKey) == Keys(handled, AdjusterOf)
      && 0 !in Keys(t, GroupKey)
  {
    var handled := Filter(window, HasAdjuster);
    forall k | 0 <= k < |handled| ensures AdjusterOf(handled[k]) != 0 {
      assert HasAdjuster(handled[k]);
    }
  }

  // ---------------------------------------------------------------------------
  // Financial

  datatype ProductRevenue = ProductRevenue(productId: int, productName: string, revenue: int)

  datatype MonthRevenue = MonthRevenue(month: int, revenue: int)

  datatype FinancialMetrics = FinancialMetrics(
    totalRevenue: int,
    totalClaimsPaid: int,
    profitMargin: real,
    expenseRatio: real,
    revenueByProduct: seq<ProductRevenue>,
    monthlyRevenue: seq<MonthRevenue>)

  function NegatedKey(g: Group): int { -g.key }

  /** `sorted(monthly_data.items())`: ascending by month. */
  function MonthlyOf(contracts: seq<Contract>): seq<Group> {
    SortDesc(Tally(contracts, MonthOf, PremiumOf), NegatedKey)
  }

  function AsMonths(groups: seq<Group>): (r: seq<MonthRevenue>)
    ensures |r| == |groups| && forall k :: 0 <= k < |r| ==> r[k] == MonthRevenue(groups[k].key, groups[k].total)
  {
    seq(|groups|, k requires 0 <= k < |groups| => MonthRevenue(groups[k].key, groups[k].total))
  }

  /** `_get_monthly_breakdown`. */
  method MonthlyBreakdown(contracts: seq<Contract>) returns (r: seq<MonthRevenue>)
    ensures r == AsMonths(MonthlyOf(contracts))
  {
    var monthly := Accumulate(contracts, MonthOf, PremiumOf);
    r := AsMonths(SortDesc(monthly, NegatedKey));
  }

  /** One entry per distinct month, months strictly ascending, and the
      revenues add up to the premiums of the contracts. */
  lemma MonthlyFacts(contracts: seq<Contract>)
    ensures var months := MonthlyOf(contracts);
      && (forall i, j :: 0 <= i < j < |months| ==> months[i].key < months[j].key)
      && Keys(months, GroupKey) == Keys(contracts, MonthOf)
      && Sum(months, GroupTotal) == Sum(contracts, PremiumOf)
  {
    var months := MonthlyOf(contracts);
    forall i, j | 0 <= i < j < |months| ensures months[i].key < months[j].key {
      assert NegatedKey(months[i]) >= NegatedKey(months[j]);
    }
  }

  function RevenueOf(products: seq<Product>, groups: seq<Group>): (r: seq<ProductRevenue>)
    ensures |r| == |groups|
    ensures forall k :: 0 <= k < |r| ==> r[k] == ProductRevenue(groups[k].key, ProductName(products, groups[k].key), groups[k].total)
  {
    seq(|groups|, k requires 0 <= k < |groups| => ProductRevenue(groups[k].key, ProductName(products, groups[k].key), groups[k].total))
  }

  /** A paid claim whose last update falls in the window. `updated_at` is kept
      by the database (`onupdate`), so it comes in as a map from claim id; a
      claim absent from the map was never updated and its NULL fails both
      comparisons. */
  predicate PaidInWindow(c: Claim, updatedAt: map<int, int>, start: int, end: int) {
    c.status == Paid && c.id in updatedAt && InWindow(updatedAt[c.id], start, end)
  }

  /** `(total_revenue - total_claims_paid) / total_revenue`, 0 without revenue. */
  function ProfitMargin(revenue: int, paid: int): real {
    Ratio(revenue - paid, revenue)
  }

  /** `get_financial_analytics`. */
  method GetFinancialAnalytics(contracts: seq<Contract>, products: seq<Product>, claims: seq<Claim>,
                               updatedAt: map<int, int>, start: int, end: int) returns (m: FinancialMetrics)
    ensures var window := ContractsInWindow(contracts, start, end);
      var paid := Filter(claims, (c: Claim) => PaidInWindow(c, updatedAt, start, end));
      && m.totalRevenue == Sum(window, PremiumOf)
      && m.totalClaimsPaid == Sum(paid, ClaimService.ApprovedOrZero)
      && m.revenueByProduct == RevenueOf(products, SortDesc(Tally(window, ProductOf, PremiumOf), GroupTotal))
      && m.monthlyRevenue == AsMonths(MonthlyOf(window))
    ensures m.profitMargin == ProfitMargin(m.totalRevenue, m.totalClaimsPaid)
    ensures m.expenseRatio == Ratio(m.totalClaimsPaid, m.totalRevenue)
    ensures m.totalRevenue <= 0 ==> m.profitMargin == 0.0 && m.expenseRatio == 0.0
  {
    var window := ContractsInWindow(contracts, start, end);
    var revenue := Sum(window, PremiumOf);
    var paid := Filter(claims, (c: Claim) => PaidInWindow(c, updatedAt, start, end));
    var claimsPaid := Sum(paid, ClaimService.ApprovedOrZero);
    var byProduct := Accumulate(window, ProductOf, PremiumOf);
    var monthly := MonthlyBreakdown(window);
    var margin := ProfitMargin(revenue, claimsPaid);
    var expense := Ratio(claimsPaid, revenue);
    m := FinancialMetrics(revenue, claimsPaid, margin, expense,
                          RevenueOf(products, SortDesc(byProduct, GroupTotal)), monthly);
  }

  /** The product revenues add up to the total revenue, one entry per product
      sold, highest revenue first. */
  lemma RevenueByProductFacts(window: seq<Contract>)
    ensures var sorted := SortDesc(Tally(window, ProductOf, PremiumOf), GroupTotal);
      && Sum(sorted, GroupTotal) == Sum(window, PremiumOf)
      && NonIncreasing(sorted, GroupTotal)
      && DistinctKeys(sorted, GroupKey)
      && Keys(sorted, GroupKey) == Keys(window, ProductOf)
  {
  }

  // ---------------------------------------------------------------------------
  // Dashboard

  datatype DashboardSummary = DashboardSummary(
    activeContracts: nat,
    pendingClaims: nat,
    totalRevenueMtd: int,
    claimsRatio: real)

  /** `today.replace(day=1)`. */
  function MonthStart(today: int): (r: int)
    ensures today - 30 <= r <= today
  {
    DayOfMonthBounds(today);
    today - (CivilFromDays(today).day - 1)
  }

  /** The start of the month-to-date window is the first day of today's
      year and month. */
  lemma MonthStartIsFirst(today: int)
    ensures var t := CivilFromDays(today);
      CivilFromDays(MonthStart(today)) == CivilDate(t.year, t.month, 1)
  {
    FirstOfSameMonth(today);
  }

  lemma MonthStartOnLeapDay()
    ensures MonthStart(19782) == 19754 && MonthStart(19754) == 19754
  {
    CivilFromDaysLeapDay();
    MonthStartIsFirst(19782);
  }

  /** `get_dashboard_summary`; `SUM` over no rows or only NULLs is NULL,
      which `or 0` turns into 0, the same as adding the non-null values. */
  function DashboardSummaryOf(contracts: seq<Contract>, claims: seq<Claim>, today: int): (r: DashboardSummary)
    ensures r.activeContracts == ContractsWithStatus(contracts, Active)
    ensures r.pendingClaims == Count(claims, (c: Claim) => ClaimService.Pending(c.status))
    ensures r.totalRevenueMtd == Sum(Filter(contracts, (c: Contract) => InWindow(c.createdAt, MonthStart(today), today)), PremiumOf)
    ensures var approved := Sum(Filter(claims, (c: Claim) => c.status == Approved), ClaimService.ApprovedOrZero);
      var premiums := Sum(contracts, PremiumOf);
      r.claimsRatio == Ratio(approved, premiums) && (premiums <= 0 ==> r.claimsRatio == 0.0)
  {
    var approved := Sum(Filter(claims, (c: Claim) => c.status == Approved), ClaimService.ApprovedOrZero);
    DashboardSummary(
      ContractsWithStatus(contracts, Active),
      Count(claims, (c: Claim) => ClaimService.Pending(c.status)),
      Sum(Filter(contracts, (c: Contract) => InWindow(c.createdAt, MonthStart(today), today)), PremiumOf),
      Ratio(approved, Sum(contracts, PremiumOf)))
  }
}
