/**
 * The dashboard figures of the analytics API: the overview (counts, revenue, average order
 * value, last-30-days figures), the top customers by spend, and the orders and products grouped
 * by financial status, by fulfillment status and by product status.
 */
module Analytics {
  import opened Wrappers
  import opened Text
  import opened Records
  import opened Database
  import opened Listing
  import opened Sync

  const OverviewFailed: string := "Failed to fetch overview"

  // ---- Overview ----

  datatype Overview = Overview(
    totalCustomers: nat, totalOrders: nat, totalProducts: nat,
    totalRevenue: Cents, averageOrderValue: real,
    recentOrders: nat, recentRevenue: Cents)

  ghost function TenantOrders(s: Snapshot, tenantId: TenantId): set<Key> {
    set k | k in s.orders.rows && s.orders.rows[k].tenantId == tenantId
  }

  ghost function TenantCustomers(s: Snapshot, tenantId: TenantId): set<Key> {
    set k | k in s.customers.rows && s.customers.rows[k].tenantId == tenantId
  }

  ghost function TenantProducts(s: Snapshot, tenantId: TenantId): set<Key> {
    set k | k in s.products.rows && s.products.rows[k].tenantId == tenantId
  }

  /** The tenant's orders created at or after `since`. */
  ghost function RecentOrders(s: Snapshot, tenantId: TenantId, since: Timestamp): set<Key> {
    set k | k in s.orders.rows && s.orders.rows[k].tenantId == tenantId
            && s.orders.rows[k].createdAtShopify.Some? && LexLe(since, s.orders.rows[k].createdAtShopify.value)
  }

  /** `aggregate({ _sum })`: null over no rows. */
  ghost function AggregateSum(orders: map<Key, Order>, ks: set<Key>): (r: Option<Cents>)
    requires ks <= orders.Keys
    ensures r.None? <==> ks == {}
  {
    if ks == {} then None else Some(SpentOver(orders, ks))
  }

  /** `aggregate({ _avg })`: null over no rows. */
  ghost function AggregateAvg(orders: map<Key, Order>, ks: set<Key>): (r: Option<real>)
    requires ks <= orders.Keys
    ensures r.None? <==> ks == {}
    ensures r.Some? ==> r.value * (|ks| as real) == SpentOver(orders, ks) as real
  {
    if ks == {} then None else Some(SpentOver(orders, ks) as real / |ks| as real)
  }

  /**
   * The overview for a tenant; `since` is the moment thirty days before the request, which the
   * route reads from the clock. A missing sum or average reads as 0.
   */
  ghost function GetOverview(s: Snapshot, tenantId: TenantId, since: Timestamp): (r: Overview)
    ensures r.totalCustomers == |TenantCustomers(s, tenantId)| && r.totalProducts == |TenantProducts(s, tenantId)|
    ensures r.totalOrders == |TenantOrders(s, tenantId)| && r.recentOrders == |RecentOrders(s, tenantId, since)|
    ensures r.totalRevenue == SpentOver(s.orders.rows, TenantOrders(s, tenantId))
    ensures r.recentRevenue == SpentOver(s.orders.rows, RecentOrders(s, tenantId, since))
    ensures r.recentOrders <= r.totalOrders
    ensures r.totalOrders == 0 ==> r.totalRevenue == 0 && r.averageOrderValue == 0.0 && r.recentRevenue == 0
    ensures r.totalOrders > 0 ==> r.averageOrderValue * (r.totalOrders as real) == r.totalRevenue as real
  {
    var all, recent := TenantOrders(s, tenantId), RecentOrders(s, tenantId, since);
    RecentAmongAll(s, tenantId, since);
    Overview(
      |TenantCustomers(s, tenantId)|,
      |all|,
      |TenantProducts(s, tenantId)|,
      AggregateSum(s.orders.rows, all).GetOr(0),
      AggregateAvg(s.orders.rows, all).GetOr(0.0),
      |recent|,
      AggregateSum(s.orders.rows, recent).GetOr(0))
  }

  lemma RecentAmongAll(s: Snapshot, tenantId: TenantId, since: Timestamp)
    ensures RecentOrders(s, tenantId, since) <= TenantOrders(s, tenantId) <= s.orders.rows.Keys
    ensures |RecentOrders(s, tenantId, since)| <= |TenantOrders(s, tenantId)|
  {
    var all, recent := TenantOrders(s, tenantId), RecentOrders(s, tenantId, since);
    assert all == recent + (all - recent);
  }

  /** Summing over a set splits over a subset and the rest. */
  lemma {:induction false} SpentOverSplit(orders: map<Key, Order>, all: set<Key>, part: set<Key>)
    requires part <= all <= orders.Keys
    ensures SpentOver(orders, all) == SpentOver(orders, part) + SpentOver(orders, all - part)
    decreases part
  {
    if part == {} {
      assert all - part == all;
    } else {
      var k :| k in part;
      SpentOverRemove(orders, all, k);
      SpentOverRemove(orders, part, k);
      SpentOverSplit(orders, all - {k}, part - {k});
      assert all - {k} - (part - {k}) == all - part;
    }
  }

  lemma {:induction false} SpentOverNonnegative(orders: map<Key, Order>, ks: set<Key>)
    requires ks <= orders.Keys
    requires forall k :: k in ks ==> orders[k].totalPrice >= 0
    ensures SpentOver(orders, ks) >= 0
    decreases ks
  {
    if ks != {} {
      var k :| k in ks;
      SpentOverRemove(orders, ks, k);
      SpentOverNonnegative(orders, ks - {k});
    }
  }

  /** With no negative order totals, the last thirty days never earn more than all time. */
  lemma RecentRevenueWithinTotal(s: Snapshot, tenantId: TenantId, since: Timestamp)
    requires forall k :: k in s.orders.rows ==> s.orders.rows[k].totalPrice >= 0
    ensures GetOverview(s, tenantId, since).recentRevenue <= GetOverview(s, tenantId, since).totalRevenue
  {
    var all, recent := TenantOrders(s, tenantId), RecentOrders(s, tenantId, since);
    assert recent <= all;
    SpentOverNonnegative(s.orders.rows, all);
    if recent != {} {
      SpentOverSplit(s.orders.rows, all, recent);
      SpentOverNonnegative(s.orders.rows, all - recent);
    }
  }

  // ---- Top customers ----

  /** `parseInt(limit) || 5`: a missing, unparsable or zero limit reads as 5. */
  function TopLimit(p: NumParam): (n: int)
    ensures n != 0
    ensures p.Num? && p.value != 0 ==> n == p.value
  {
    match p
    case Num(v) => if v == 0 then 5 else v
    case _ => 5
  }

  /** The columns the route selects. */
  datatype TopCustomer = TopCustomer(id: RowId, email: Option<string>, firstName: Option<string>, lastName: Option<string>,
                                     totalSpent: Cents, ordersCount: int)

  function Pick(c: Customer): TopCustomer {
    TopCustomer(c.id, c.email, c.firstName, c.lastName, c.totalSpent, c.ordersCount)
  }

  /** `orderBy: { totalSpent: 'desc' }`: `a` comes first when it spent more. */
  predicate SpentMore(a: Customer, b: Customer) {
    a.totalSpent > b.totalSpent
  }

  /** The reply of the top-customers route, with `rows` the customers the store took. */
  ghost predicate TopCustomersReply(s: Snapshot, tenantId: TenantId, limit: NumParam, rows: seq<Customer>, reply: seq<TopCustomer>) {
    && (exists all :: ListedAll(s.customers.rows, (c: Customer) => c.tenantId == tenantId, SpentMore, all)
                      && rows == Slice(all, 0, TopLimit(limit)))
    && reply == seq(|rows|, i requires 0 <= i < |rows| => Pick(rows[i]))
  }

  /** Taking from a list ordered by spend keeps it ordered; with `n > 0` a row left out spent no more than any row taken. */
  lemma TakenFromOrdered(all: seq<Customer>, n: int)
    requires forall i, j :: 0 <= i < j < |all| ==> !SpentMore(all[j], all[i])
    ensures var rows := Slice(all, 0, n);
            && (forall i, j :: 0 <= i < j < |rows| ==> rows[i].totalSpent >= rows[j].totalSpent)
            && (n > 0 ==> forall c, i :: c in all && c !in rows && 0 <= i < |rows| ==> c.totalSpent <= rows[i].totalSpent)
  {
    var rows := Slice(all, 0, n);
    if n > 0 {
      forall c, i | c in all && c !in rows && 0 <= i < |rows| ensures c.totalSpent <= rows[i].totalSpent {
        var j :| 0 <= j < |all| && all[j] == c;
        assert !SpentMore(all[j], all[i]);
      }
    }
  }

  /**
   * Top customers: at most `limit` (5 by default) of the tenant's customers, biggest spender
   * first; with a positive limit, every customer of the tenant left out spent no more than any
   * customer listed.
   */
  lemma TopCustomersSound(s: Snapshot, tenantId: TenantId, limit: NumParam, rows: seq<Customer>, reply: seq<TopCustomer>)
    requires TopCustomersReply(s, tenantId, limit, rows, reply)
    ensures |reply| <= Abs(TopLimit(limit))
    ensures forall i :: 0 <= i < |rows| ==> rows[i].tenantId == tenantId && rows[i] in s.customers.rows.Values && reply[i] == Pick(rows[i])
    ensures forall i, j :: 0 <= i < j < |reply| ==> reply[i].totalSpent >= reply[j].totalSpent
    ensures TopLimit(limit) > 0 ==>
              forall c, i :: c in s.customers.rows.Values && c.tenantId == tenantId && c !in rows && 0 <= i < |rows| ==>
                c.totalSpent <= rows[i].totalSpent
  {
    var matches := (c: Customer) => c.tenantId == tenantId;
    var all :| ListedAll(s.customers.rows, matches, SpentMore, all) && rows == Slice(all, 0, TopLimit(limit));
    ListedAllSound(s.customers.rows, matches, SpentMore, all);
    TakenFromOrdered(all, TopLimit(limit));
    forall c | c in s.customers.rows.Values && c.tenantId == tenantId ensures c in all {
      var k :| k in s.customers.rows && s.customers.rows[k] == c;
    }
  }

  // ---- Grouped counts ----

  /** The distinct values of `keyOf` over the selected rows. */
  ghost function GroupKeys<T, K>(rows: map<Key, T>, matches: T -> bool, keyOf: T -> K): set<K> {
    set k | k in rows && matches(rows[k]) :: keyOf(rows[k])
  }

  /** The selected rows whose `keyOf` is `g`. */
  function Members<T, K(==)>(rows: map<Key, T>, matches: T -> bool, keyOf: T -> K, g: K): set<Key> {
    set k | k in rows && matches(rows[k]) && keyOf(rows[k]) == g
  }

  /** `groupBy`: each value of the grouping column among the selected rows exactly once, in the store's order. */
  ghost predicate GroupedBy<T, K>(rows: map<Key, T>, matches: T -> bool, keyOf: T -> K, groups: seq<K>) {
    && (forall i, j :: 0 <= i < j < |groups| ==> groups[i] != groups[j])
    && (forall i :: 0 <= i < |groups| ==> groups[i] in GroupKeys(rows, matches, keyOf))
    && (forall g :: g in GroupKeys(rows, matches, keyOf) ==> g in groups)
  }

  function Sum(xs: seq<int>): int {
    if xs == [] then 0 else Sum(xs[..|xs| - 1]) + xs[|xs| - 1]
  }

  /** `_count` per group. */
  function GroupCounts<T, K(==)>(rows: map<Key, T>, matches: T -> bool, keyOf: T -> K, groups: seq<K>): (r: seq<int>)
    ensures |r| == |groups|
    ensures forall i :: 0 <= i < |groups| ==> r[i] == |Members(rows, matches, keyOf, groups[i])|
  {
    seq(|groups|, i requires 0 <= i < |groups| => |Members(rows, matches, keyOf, groups[i])|)
  }

  /** The selected rows whose group is among `groups`. */
  function Covered<T, K(==)>(rows: map<Key, T>, matches: T -> bool, keyOf: T -> K, groups: seq<K>): set<Key> {
    set k | k in rows && matches(rows[k]) && keyOf(rows[k]) in groups
  }

  lemma {:induction false} CountsCover<T, K>(rows: map<Key, T>, matches: T -> bool, keyOf: T -> K, groups: seq<K>)
    requires forall i, j :: 0 <= i < j < |groups| ==> groups[i] != groups[j]
    ensures Sum(GroupCounts(rows, matches, keyOf, groups)) == |Covered(rows, matches, keyOf, groups)|
    decreases |groups|
  {
    if groups != [] {
      var init, last := groups[..|groups| - 1], groups[|groups| - 1];
      CountsCover(rows, matches, keyOf, init);
      assert GroupCounts(rows, matches, keyOf, groups)[..|groups| - 1] == GroupCounts(rows, matches, keyOf, init);
      CoveredSplit(rows, matches, keyOf, groups);
    }
  }

  /** The rows of distinct groups are those of all groups but the last, plus (apart) the last one's. */
  lemma CoveredSplit<T, K>(rows: map<Key, T>, matches: T -> bool, keyOf: T -> K, groups: seq<K>)
    requires groups != []
    requires forall i, j :: 0 <= i < j < |groups| ==> groups[i] != groups[j]
    ensures var a, b := Covered(rows, matches, keyOf, groups[..|groups| - 1]), Members(rows, matches, keyOf, groups[|groups| - 1]);
            Covered(rows, matches, keyOf, groups) == a + b && a * b == {}
  {
    var init, last := groups[..|groups| - 1], groups[|groups| - 1];
    var a, b := Covered(rows, matches, keyOf, init), Members(rows, matches, keyOf, last);
    assert Covered(rows, matches, keyOf, groups) == a + b;
    forall k | k in a ensures k !in b {
      var i :| 0 <= i < |init| && init[i] == keyOf(rows[k]);
      assert groups[i] == init[i];
    }
  }

  /** The group counts add up to the number of selected rows: every row is in exactly one group. */
  lemma GroupCountsTotal<T, K>(rows: map<Key, T>, matches: T -> bool, keyOf: T -> K, groups: seq<K>)
    requires GroupedBy(rows, matches, keyOf, groups)
    ensures Sum(GroupCounts(rows, matches, keyOf, groups)) == |Matching(rows, matches)|
    ensures forall i :: 0 <= i < |groups| ==> GroupCounts(rows, matches, keyOf, groups)[i] > 0
  {
    CountsCover(rows, matches, keyOf, groups);
    assert Covered(rows, matches, keyOf, groups) == Matching(rows, matches) by {
      forall k | k in Matching(rows, matches) ensures keyOf(rows[k]) in groups {
        assert keyOf(rows[k]) in GroupKeys(rows, matches, keyOf);
      }
    }
    forall i | 0 <= i < |groups| ensures |Members(rows, matches, keyOf, groups[i])| > 0 {
      var k :| k in rows && matches(rows[k]) && keyOf(rows[k]) == groups[i];
      assert k in Members(rows, matches, keyOf, groups[i]);
    }
  }

  // ---- Status breakdowns ----

  /** `x || fallback`: a null or empty status shows as the fallback. */
  function Label(x: Option<string>, fallback: string): (r: string)
    ensures Given(x) ==> r == x.value
    ensures !Given(x) ==> r == fallback
  {
    if x.Some? && x.value != "" then x.value else fallback
  }

  datatype StatusRevenue = StatusRevenue(status: string, revenue: Cents, count: nat)

  datatype StatusCount = StatusCount(status: string, count: nat)

  function FinancialStatus(o: Order): Option<string> { o.financialStatus }
  function FulfillmentStatus(o: Order): Option<string> { o.fulfillmentStatus }
  function ProductStatus(p: Product): Option<string> { p.status }
  predicate OfTenant(tenantId: TenantId, o: Order) { o.tenantId == tenantId }

  /** Revenue by financial status, for the store's grouping `groups` of the tenant's orders. */
  ghost predicate RevenueByStatusReply(s: Snapshot, tenantId: TenantId, groups: seq<Option<string>>, reply: seq<StatusRevenue>) {
    var matches := (o: Order) => OfTenant(tenantId, o);
    && GroupedBy(s.orders.rows, matches, FinancialStatus, groups)
    && |reply| == |groups|
    && forall i :: 0 <= i < |groups| ==>
         var members := Members(s.orders.rows, matches, FinancialStatus, groups[i]);
         reply[i] == StatusRevenue(Label(groups[i], "unknown"), SpentOver(s.orders.rows, members), |members|)
  }

  /** One numeric column of a reply, row by row. */
  function Column<T>(rows: seq<T>, field: T -> int): (r: seq<int>)
    ensures |r| == |rows| && forall i :: 0 <= i < |rows| ==> r[i] == field(rows[i])
  {
    seq(|rows|, i requires 0 <= i < |rows| => field(rows[i]))
  }

  lemma {:induction false} RevenuesCover(orders: map<Key, Order>, tenantId: TenantId, groups: seq<Option<string>>)
    requires forall i, j :: 0 <= i < j < |groups| ==> groups[i] != groups[j]
    ensures var matches := (o: Order) => OfTenant(tenantId, o);
            Covered(orders, matches, FinancialStatus, groups) <= orders.Keys
            && Sum(seq(|groups|, i requires 0 <= i < |groups| => SpentOver(orders, Members(orders, matches, FinancialStatus, groups[i]))))
               == SpentOver(orders, Covered(orders, matches, FinancialStatus, groups))
    decreases |groups|
  {
    var matches := (o: Order) => OfTenant(tenantId, o);
    if groups != [] {
      var init, last := groups[..|groups| - 1], groups[|groups| - 1];
      RevenuesCover(orders, tenantId, init);
      var xs := seq(|groups|, i requires 0 <= i < |groups| => SpentOver(orders, Members(orders, matches, FinancialStatus, groups[i])));
      assert xs[..|groups| - 1] == seq(|init|, i requires 0 <= i < |init| => SpentOver(orders, Members(orders, matches, FinancialStatus, init[i])));
      var all, b := Covered(orders, matches, FinancialStatus, groups), Members(orders, matches, FinancialStatus, last);
      CoveredSplit(orders, matches, FinancialStatus, groups);
      assert all - b == Covered(orders, matches, FinancialStatus, init);
      SpentOverSplit(orders, all, b);
    }
  }

  /**
   * Revenue by status: one row per distinct financial status of the tenant's orders; the counts
   * add up to the tenant's orders and the revenues to their summed totals.
   */
  lemma RevenueByStatusSound(s: Snapshot, tenantId: TenantId, groups: seq<Option<string>>, reply: seq<StatusRevenue>)
    requires RevenueByStatusReply(s, tenantId, groups, reply)
    ensures Sum(Column(reply, (r: StatusRevenue) => r.count)) == |TenantOrders(s, tenantId)|
    ensures Sum(Column(reply, (r: StatusRevenue) => r.revenue)) == SpentOver(s.orders.rows, TenantOrders(s, tenantId))
    ensures forall i :: 0 <= i < |reply| ==> reply[i].count > 0
  {
    var matches := (o: Order) => OfTenant(tenantId, o);
    GroupCountsTotal(s.orders.rows, matches, FinancialStatus, groups);
    assert Column(reply, (r: StatusRevenue) => r.count) == GroupCounts(s.orders.rows, matches, FinancialStatus, groups);
    assert Matching(s.orders.rows, matches) == TenantOrders(s, tenantId);
    RevenuesCover(s.orders.rows, tenantId, groups);
    assert Covered(s.orders.rows, matches, FinancialStatus, groups) == TenantOrders(s, tenantId) by {
      forall k | k in TenantOrders(s, tenantId) ensures FinancialStatus(s.orders.rows[k]) in groups {
        assert FinancialStatus(s.orders.rows[k]) in GroupKeys(s.orders.rows, matches, FinancialStatus);
      }
    }
    assert Column(reply, (r: StatusRevenue) => r.revenue) == seq(|groups|, i requires 0 <= i < |groups| => SpentOver(s.orders.rows, Members(s.orders.rows, matches, FinancialStatus, groups[i])));
  }

  /** Fulfillment statistics for the store's grouping `groups` of the tenant's orders. */
  ghost predicate FulfillmentReply(s: Snapshot, tenantId: TenantId, groups: seq<Option<string>>, reply: seq<StatusCount>) {
    var matches := (o: Order) => OfTenant(tenantId, o);
    && GroupedBy(s.orders.rows, matches, FulfillmentStatus, groups)
    && |reply| == |groups|
    && forall i :: 0 <= i < |groups| ==>
         reply[i] == StatusCount(Label(groups[i], "unfulfilled"), |Members(s.orders.rows, matches, FulfillmentStatus, groups[i])|)
  }

  /** Products by status for the store's grouping `groups` of the tenant's products. */
  ghost predicate ProductsByStatusReply(s: Snapshot, tenantId: TenantId, groups: seq<Option<string>>, reply: seq<StatusCount>) {
    var matches := (p: Product) => p.tenantId == tenantId;
    && GroupedBy(s.products.rows, matches, ProductStatus, groups)
    && |reply| == |groups|
    && forall i :: 0 <= i < |groups| ==>
         reply[i] == StatusCount(Label(groups[i], "unknown"), |Members(s.products.rows, matches, ProductStatus, groups[i])|)
  }

  /** The fulfillment counts add up to the tenant's orders; unfulfilled orders carry no status and show as "unfulfilled". */
  lemma FulfillmentSound(s: Snapshot, tenantId: TenantId, groups: seq<Option<string>>, reply: seq<StatusCount>)
    requires FulfillmentReply(s, tenantId, groups, reply)
    ensures Sum(Column(reply, (r: StatusCount) => r.count)) == |TenantOrders(s, tenantId)|
    ensures forall i :: 0 <= i < |reply| ==> reply[i].count > 0 && (groups[i].None? ==> reply[i].status == "unfulfilled")
  {
    var matches := (o: Order) => OfTenant(tenantId, o);
    GroupCountsTotal(s.orders.rows, matches, FulfillmentStatus, groups);
    assert Column(reply, (r: StatusCount) => r.count) == GroupCounts(s.orders.rows, matches, FulfillmentStatus, groups);
    assert Matching(s.orders.rows, matches) == TenantOrders(s, tenantId);
  }

  /** The product status counts add up to the tenant's products. */
  lemma ProductsByStatusSound(s: Snapshot, tenantId: TenantId, groups: seq<Option<string>>, reply: seq<StatusCount>)
    requires ProductsByStatusReply(s, tenantId, groups, reply)
    ensures Sum(Column(reply, (r: StatusCount) => r.count)) == |TenantProducts(s, tenantId)|
    ensures forall i :: 0 <= i < |reply| ==> reply[i].count > 0
  {
    var matches := (p: Product) => p.tenantId == tenantId;
    GroupCountsTotal(s.products.rows, matches, ProductStatus, groups);
    assert Column(reply, (r: StatusCount) => r.count) == GroupCounts(s.products.rows, matches, ProductStatus, groups);
    assert Matching(s.products.rows, matches) == TenantProducts(s, tenantId);
  }

  /**
   * A null status and an empty status are distinct groups in the store, yet both show as
   * "unknown": the reply can carry the same label twice.
   */
  lemma UnknownLabelRepeats()
    ensures Label(None, "unknown") == Label(Some(""), "unknown") == "unknown"
    ensures None != Some("")
  {
  }
}
