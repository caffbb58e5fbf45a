/**
 * The two chart routes of the analytics API: orders and revenue per day (optionally inside a
 * date range) and per month. Both read the tenant's orders oldest first and fold them into
 * buckets keyed by a prefix of the creation timestamp, skipping orders without one; buckets
 * come out in the order their period first appears.
 */
module Charts {
  import opened Wrappers
  import opened Text
  import opened Records
  import opened Database
  import opened Listing
  import OrdersRoute

  const OrdersByDateFailed: string := "Failed to fetch orders by date"
  const MonthlyTrendsFailed: string := "Failed to fetch monthly trends"

  datatype Granularity = Day | Month

  /** The bucket key of a timestamp: the text before the first `T` (the day), or its first seven characters (the month). */
  function PeriodOf(g: Granularity, t: Timestamp): (r: string)
    ensures IsPrefix(r, t)
  {
    match g
    case Day => t[..FirstIndexOf(t, 'T')]
    case Month => Take(t, 7)
  }

  /** One point of a chart. */
  datatype Bucket = Bucket(period: string, orders: nat, revenue: Cents)

  /** Position of the bucket for `period`, or `|bs|` when there is none yet. */
  function BucketIndex(bs: seq<Bucket>, period: string): (i: nat)
    ensures i <= |bs|
    ensures i < |bs| ==> bs[i].period == period
    ensures forall j :: 0 <= j < i ==> bs[j].period != period
  {
    if bs == [] then 0
    else if bs[0].period == period then 0
    else 1 + BucketIndex(bs[1..], period)
  }

  /** Counts one order of `amount` in the bucket for `period`, opening that bucket at the end if it is new. */
  function Counted(bs: seq<Bucket>, period: string, amount: Cents): seq<Bucket> {
    var i := BucketIndex(bs, period);
    if i < |bs| then bs[i := Bucket(period, bs[i].orders + 1, bs[i].revenue + amount)]
    else bs + [Bucket(period, 1, amount)]
  }

  /** The buckets the orders fold into, in order. */
  function Tally(orders: seq<Order>, g: Granularity): seq<Bucket>
    decreases |orders|
  {
    if orders == [] then []
    else
      var before, o := Tally(orders[..|orders| - 1], g), orders[|orders| - 1];
      if o.createdAtShopify.None? then before
      else Counted(before, PeriodOf(g, o.createdAtShopify.value), o.totalPrice)
  }

  /** The number of dated orders whose period is `period`. */
  function CountIn(orders: seq<Order>, g: Granularity, period: string): nat
    decreases |orders|
  {
    if orders == [] then 0
    else
      var o := orders[|orders| - 1];
      CountIn(orders[..|orders| - 1], g, period)
      + (if o.createdAtShopify.Some? && PeriodOf(g, o.createdAtShopify.value) == period then 1 else 0)
  }

  /** The summed `totalPrice` of the dated orders whose period is `period`. */
  function RevenueIn(orders: seq<Order>, g: Granularity, period: string): Cents
    decreases |orders|
  {
    if orders == [] then 0
    else
      var o := orders[|orders| - 1];
      RevenueIn(orders[..|orders| - 1], g, period)
      + (if o.createdAtShopify.Some? && PeriodOf(g, o.createdAtShopify.value) == period then o.totalPrice else 0)
  }

  predicate DistinctPeriods(bs: seq<Bucket>) {
    forall i, j :: 0 <= i < j < |bs| ==> bs[i].period != bs[j].period
  }

  /** `period` is the period of some dated order in the list. */
  predicate Occurs(orders: seq<Order>, g: Granularity, period: string) {
    exists j :: 0 <= j < |orders| && orders[j].createdAtShopify.Some? && PeriodOf(g, orders[j].createdAtShopify.value) == period
  }

  /** `index` maps each period that has a bucket to that bucket's position. */
  ghost predicate Indexes(index: map<string, nat>, bs: seq<Bucket>) {
    && (forall p :: p in index <==> BucketIndex(bs, p) < |bs|)
    && (forall p :: p in index ==> index[p] == BucketIndex(bs, p))
  }

  /**
   * Folds the orders into buckets as the route does: an object keyed by period (here a map
   * to the bucket's position) whose values keep their insertion order.
   */
  method GroupByPeriod(orders: seq<Order>, g: Granularity) returns (buckets: seq<Bucket>)
    ensures buckets == Tally(orders, g)
  {
    var index: map<string, nat> := map[];
    buckets := [];
    for i := 0 to |orders|
      invariant buckets == Tally(orders[..i], g)
      invariant Indexes(index, buckets)
    {
      var o := orders[i];
      assert orders[..i + 1][..i] == orders[..i];
      if o.createdAtShopify.Some? {
        buckets, index := CountOrder(buckets, index, PeriodOf(g, o.createdAtShopify.value), o.totalPrice);
      }
    }
    assert orders[..|orders|] == orders;
  }

  /** One step of the fold: open the period's bucket at zero if it is new, then count the order in it. */
  method CountOrder(buckets: seq<Bucket>, index: map<string, nat>, period: string, amount: Cents)
    returns (buckets': seq<Bucket>, index': map<string, nat>)
    requires Indexes(index, buckets)
    ensures buckets' == Counted(buckets, period, amount)
    ensures Indexes(index', buckets')
  {
    buckets', index' := buckets, index;
    if period !in index' {
      Opened(index', buckets', period);
      index' := index'[period := |buckets'|];
      buckets' := buckets' + [Bucket(period, 0, 0)];
    }
    var at := index'[period];
    var b := buckets'[at].(orders := buckets'[at].orders + 1, revenue := buckets'[at].revenue + amount);
    Bumped(index', buckets', at, b);
    buckets' := buckets'[at := b];
  }

  lemma Opened(index: map<string, nat>, bs: seq<Bucket>, period: string)
    requires Indexes(index, bs) && period !in index
    ensures Indexes(index[period := |bs|], bs + [Bucket(period, 0, 0)])
    ensures BucketIndex(bs, period) == |bs|
  {
    forall p ensures BucketIndex(bs + [Bucket(period, 0, 0)], p) == if BucketIndex(bs, p) < |bs| then BucketIndex(bs, p) else if p == period then |bs| else |bs| + 1 {
      BucketIndexAppendOne(bs, Bucket(period, 0, 0), p);
    }
  }

  lemma Bumped(index: map<string, nat>, bs: seq<Bucket>, at: nat, b: Bucket)
    requires Indexes(index, bs) && at < |bs| && b.period == bs[at].period
    ensures Indexes(index, bs[at := b])
  {
    forall p ensures BucketIndex(bs[at := b], p) == BucketIndex(bs, p) {
      BucketIndexUpdateOne(bs, at, b, p);
    }
  }

  lemma {:induction false} BucketIndexAppendOne(bs: seq<Bucket>, b: Bucket, p: string)
    ensures BucketIndex(bs + [b], p) == if BucketIndex(bs, p) < |bs| then BucketIndex(bs, p) else if p == b.period then |bs| else |bs| + 1
  {
    if bs != [] {
      BucketIndexAppendOne(bs[1..], b, p);
      assert (bs + [b])[1..] == bs[1..] + [b];
    }
  }

  lemma {:induction false} BucketIndexUpdateOne(bs: seq<Bucket>, at: nat, b: Bucket, p: string)
    requires at < |bs| && b.period == bs[at].period
    ensures BucketIndex(bs[at := b], p) == BucketIndex(bs, p)
  {
    if at > 0 && bs[0].period != p {
      BucketIndexUpdateOne(bs[1..], at - 1, b, p);
      assert bs[at := b][1..] == bs[1..][at - 1 := b];
    }
  }

  // ---- What the fold computes ----

  /** Where each period sits after counting one more order. */
  lemma CountedIndex(bs: seq<Bucket>, period: string, amount: Cents, p: string)
    ensures var r := Counted(bs, period, amount);
            && BucketIndex(r, period) == BucketIndex(bs, period) < |r|
            && r[BucketIndex(bs, period)].period == period
            && (p != period ==> (BucketIndex(r, p) < |r| <==> BucketIndex(bs, p) < |bs|))
            && (p != period && BucketIndex(bs, p) < |bs| ==> BucketIndex(r, p) == BucketIndex(bs, p) && r[BucketIndex(bs, p)] == bs[BucketIndex(bs, p)])
  {
    var i := BucketIndex(bs, period);
    if i < |bs| {
      var b := Bucket(period, bs[i].orders + 1, bs[i].revenue + amount);
      BucketIndexUpdateOne(bs, i, b, p);
      BucketIndexUpdateOne(bs, i, b, period);
    } else {
      BucketIndexAppendOne(bs, Bucket(period, 1, amount), p);
      BucketIndexAppendOne(bs, Bucket(period, 1, amount), period);
    }
  }

  /**
   * For every period, the bucket holds the number of dated orders of that period and their
   * summed `totalPrice`; a period with no bucket has no dated orders.
   */
  lemma {:induction false} TallyCounts(orders: seq<Order>, g: Granularity, p: string)
    ensures var bs := Tally(orders, g); var i := BucketIndex(bs, p);
            && CountIn(orders, g, p) == (if i < |bs| then bs[i].orders else 0)
            && RevenueIn(orders, g, p) == (if i < |bs| then bs[i].revenue else 0)
    decreases |orders|
  {
    if orders != [] {
      var prefix, o := orders[..|orders| - 1], orders[|orders| - 1];
      TallyCounts(prefix, g, p);
      if o.createdAtShopify.Some? {
        var period := PeriodOf(g, o.createdAtShopify.value);
        CountedIndex(Tally(prefix, g), period, o.totalPrice, p);
      }
    }
  }

  /** A period occurs in a list when it occurs before the last order or is the last order's. */
  lemma OccursSnoc(orders: seq<Order>, g: Granularity, p: string)
    requires orders != []
    ensures var prefix, o := orders[..|orders| - 1], orders[|orders| - 1];
            Occurs(orders, g, p) <==> Occurs(prefix, g, p) || (o.createdAtShopify.Some? && PeriodOf(g, o.createdAtShopify.value) == p)
  {
    var prefix := orders[..|orders| - 1];
    if Occurs(prefix, g, p) {
      var j :| 0 <= j < |prefix| && prefix[j].createdAtShopify.Some? && PeriodOf(g, prefix[j].createdAtShopify.value) == p;
      assert orders[j] == prefix[j];
    }
    if Occurs(orders, g, p) {
      var j :| 0 <= j < |orders| && orders[j].createdAtShopify.Some? && PeriodOf(g, orders[j].createdAtShopify.value) == p;
      if j < |prefix| {
        assert orders[j] == prefix[j];
      }
    }
  }

  /** Every bucket is the period of some dated order, and every dated order has a bucket. */
  lemma {:induction false} TallyPeriods(orders: seq<Order>, g: Granularity, p: string)
    ensures var bs := Tally(orders, g); BucketIndex(bs, p) < |bs| <==> Occurs(orders, g, p)
    decreases |orders|
  {
    if orders != [] {
      var prefix, o := orders[..|orders| - 1], orders[|orders| - 1];
      TallyPeriods(prefix, g, p);
      OccursSnoc(orders, g, p);
      if o.createdAtShopify.Some? {
        CountedIndex(Tally(prefix, g), PeriodOf(g, o.createdAtShopify.value), o.totalPrice, p);
      }
    }
  }

  /** No two buckets share a period. */
  lemma {:induction false} TallyDistinct(orders: seq<Order>, g: Granularity)
    ensures DistinctPeriods(Tally(orders, g))
    decreases |orders|
  {
    if orders != [] {
      var prefix, o := orders[..|orders| - 1], orders[|orders| - 1];
      TallyDistinct(prefix, g);
      if o.createdAtShopify.Some? {
        var bs, period := Tally(prefix, g), PeriodOf(g, o.createdAtShopify.value);
        var i := BucketIndex(bs, period);
        if i == |bs| {
          assert forall j :: 0 <= j < |bs| ==> bs[j].period != period;
        }
      }
    }
  }

  predicate Ascending(bs: seq<Bucket>) {
    forall i, j :: 0 <= i < j < |bs| ==> LexLe(bs[i].period, bs[j].period)
  }

  /** The periods of the dated orders never go down along the list. */
  predicate PeriodsAscend(orders: seq<Order>, g: Granularity) {
    forall i, j :: 0 <= i < j < |orders| && orders[i].createdAtShopify.Some? && orders[j].createdAtShopify.Some? ==>
      LexLe(PeriodOf(g, orders[i].createdAtShopify.value), PeriodOf(g, orders[j].createdAtShopify.value))
  }

  /** Orders whose periods never go down give buckets in ascending period order. */
  lemma {:induction false} TallyAscending(orders: seq<Order>, g: Granularity)
    requires PeriodsAscend(orders, g)
    ensures Ascending(Tally(orders, g))
    decreases |orders|
  {
    if orders != [] {
      var prefix, o := orders[..|orders| - 1], orders[|orders| - 1];
      assert PeriodsAscend(prefix, g) by {
        forall i, j | 0 <= i < j < |prefix| ensures prefix[i] == orders[i] && prefix[j] == orders[j] { }
      }
      TallyAscending(prefix, g);
      if o.createdAtShopify.Some? {
        var bs, period := Tally(prefix, g), PeriodOf(g, o.createdAtShopify.value);
        if BucketIndex(bs, period) == |bs| {
          forall i | 0 <= i < |bs| ensures LexLe(bs[i].period, period) {
            TallyPeriods(prefix, g, bs[i].period);
            var j :| 0 <= j < |prefix| && prefix[j].createdAtShopify.Some? && PeriodOf(g, prefix[j].createdAtShopify.value) == bs[i].period;
            assert prefix[j] == orders[j];
          }
        }
      }
    }
  }

  // ---- Periods of ISO timestamps ----

  /** The shape of `toISOString()` output: the date, then `T` at position 10. */
  predicate IsoShaped(t: Timestamp) {
    |t| > 10 && t[10] == 'T' && forall i :: 0 <= i < 10 ==> t[i] != 'T'
  }

  /** The day of an ISO timestamp is its first ten characters. */
  lemma DayIsDatePart(t: Timestamp)
    requires IsoShaped(t)
    ensures PeriodOf(Day, t) == Take(t, 10)
  {
    assert FirstIndexOf(t, 'T') == 10;
  }

  /** Later timestamps never fall in an earlier month, nor (for ISO timestamps) in an earlier day. */
  lemma PeriodMonotone(g: Granularity, a: Timestamp, b: Timestamp)
    requires LexLe(a, b)
    requires g == Day ==> IsoShaped(a) && IsoShaped(b)
    ensures LexLe(PeriodOf(g, a), PeriodOf(g, b))
  {
    match g
    case Day =>
      DayIsDatePart(a);
      DayIsDatePart(b);
      LexLeTake(a, b, 10);
    case Month =>
      LexLeTake(a, b, 7);
  }

  // ---- The routes ----

  /** `orderBy: { createdAtShopify: 'asc' }`: `a` must come before `b` when it was created earlier. */
  predicate Older(a: Order, b: Order) {
    OrdersRoute.Newer(b, a)
  }

  /** Dated orders in an order no `Older` pair contradicts have ascending timestamps. */
  lemma OldestFirst(orders: seq<Order>, g: Granularity)
    requires forall i, j :: 0 <= i < j < |orders| ==> !Older(orders[j], orders[i])
    requires g == Day ==> forall i :: 0 <= i < |orders| && orders[i].createdAtShopify.Some? ==> IsoShaped(orders[i].createdAtShopify.value)
    ensures PeriodsAscend(orders, g)
  {
    forall i, j | 0 <= i < j < |orders| && orders[i].createdAtShopify.Some? && orders[j].createdAtShopify.Some?
      ensures LexLe(PeriodOf(g, orders[i].createdAtShopify.value), PeriodOf(g, orders[j].createdAtShopify.value))
    {
      var a, b := orders[i].createdAtShopify.value, orders[j].createdAtShopify.value;
      LexLeTotal(a, b);
      LexLeReflexive(a);
      PeriodMonotone(g, a, b);
    }
  }

  datatype ChartReply = Chart(data: seq<Bucket>) | ChartFailed(error: string)

  /** Builds the optional date filter of the orders-by-date route. */
  method BuildDateFilter(tenantId: TenantId, startDate: Option<OrdersRoute.JsDate>, endDate: Option<OrdersRoute.JsDate>)
    returns (w: OrdersRoute.OrderWhere)
    ensures OrdersRoute.BuiltFor(w, tenantId, OrdersRoute.OrderQuery(PageQuery(Absent, Absent), None, startDate, endDate))
  {
    var range: Option<OrdersRoute.DateRange> := None;
    if startDate.Some? || endDate.Some? {
      range := Some(OrdersRoute.DateRange(None, None));
      if startDate.Some? {
        range := Some(range.value.(gte := startDate));
      }
      if endDate.Some? {
        range := Some(range.value.(lte := endDate));
      }
    }
    w := OrdersRoute.OrderWhere(tenantId, None, range);
  }

  /** The orders-by-date reply for the filter it built, given the orders the store lists for it. */
  ghost predicate OrdersByDateReply(s: Snapshot, w: OrdersRoute.OrderWhere, orders: seq<Order>, reply: ChartReply) {
    if !OrdersRoute.Usable(w) then reply == ChartFailed(OrdersByDateFailed)
    else
      && ListedAll(s.orders.rows, (o: Order) => OrdersRoute.OrderMatches(w, o), Older, orders)
      && reply == Chart(Tally(orders, Day))
  }

  /** The monthly-trends reply, given the tenant's orders as the store lists them. */
  ghost predicate MonthlyTrendsReply(s: Snapshot, tenantId: TenantId, orders: seq<Order>, reply: ChartReply) {
    && ListedAll(s.orders.rows, (o: Order) => o.tenantId == tenantId, Older, orders)
    && reply == Chart(Tally(orders, Month))
  }

  /**
   * The orders-by-date chart fails exactly on an invalid date; otherwise it folds exactly the
   * tenant's orders inside the range, each once.
   */
  lemma OrdersByDateRows(s: Snapshot, tenantId: TenantId, startDate: Option<OrdersRoute.JsDate>, endDate: Option<OrdersRoute.JsDate>,
                         w: OrdersRoute.OrderWhere, orders: seq<Order>, reply: ChartReply)
    requires OrdersRoute.BuiltFor(w, tenantId, OrdersRoute.OrderQuery(PageQuery(Absent, Absent), None, startDate, endDate))
    requires OrdersByDateReply(s, w, orders, reply)
    ensures reply.ChartFailed? <==> startDate == Some(OrdersRoute.InvalidDate) || endDate == Some(OrdersRoute.InvalidDate)
    ensures reply.Chart? ==>
              var q := OrdersRoute.OrderQuery(PageQuery(Absent, Absent), None, startDate, endDate);
              && (forall i :: 0 <= i < |orders| ==> OrdersRoute.OrderFilter(tenantId, q, orders[i]) && orders[i] in s.orders.rows.Values)
              && (forall k :: k in s.orders.rows && OrdersRoute.OrderFilter(tenantId, q, s.orders.rows[k]) ==> s.orders.rows[k] in orders)
              && |orders| == |set k | k in s.orders.rows && OrdersRoute.OrderFilter(tenantId, q, s.orders.rows[k])|
  {
    if OrdersRoute.Usable(w) {
      var q := OrdersRoute.OrderQuery(PageQuery(Absent, Absent), None, startDate, endDate);
      var matches := (o: Order) => OrdersRoute.OrderMatches(w, o);
      ListedAllSound(s.orders.rows, matches, Older, orders);
      assert Matching(s.orders.rows, matches) == set k | k in s.orders.rows && OrdersRoute.OrderFilter(tenantId, q, s.orders.rows[k]);
    }
  }

  /** The orders-by-date chart has one bucket per day, and the days ascend when the timestamps are ISO text. */
  lemma OrdersByDateBuckets(s: Snapshot, w: OrdersRoute.OrderWhere, orders: seq<Order>, reply: ChartReply)
    requires OrdersByDateReply(s, w, orders, reply) && reply.Chart?
    ensures DistinctPeriods(reply.data)
    ensures (forall i :: 0 <= i < |orders| && orders[i].createdAtShopify.Some? ==> IsoShaped(orders[i].createdAtShopify.value))
            ==> Ascending(reply.data)
  {
    ListedAllSound(s.orders.rows, (o: Order) => OrdersRoute.OrderMatches(w, o), Older, orders);
    TallyDistinct(orders, Day);
    if forall i :: 0 <= i < |orders| && orders[i].createdAtShopify.Some? ==> IsoShaped(orders[i].createdAtShopify.value) {
      OldestFirst(orders, Day);
      TallyAscending(orders, Day);
    }
  }

  /**
   * The monthly-trends chart folds each of the tenant's orders once into one bucket per month,
   * and the months ascend.
   */
  lemma MonthlyTrendsSound(s: Snapshot, tenantId: TenantId, orders: seq<Order>, reply: ChartReply)
    requires MonthlyTrendsReply(s, tenantId, orders, reply)
    ensures forall i :: 0 <= i < |orders| ==> orders[i].tenantId == tenantId && orders[i] in s.orders.rows.Values
    ensures forall k :: k in s.orders.rows && s.orders.rows[k].tenantId == tenantId ==> s.orders.rows[k] in orders
    ensures |orders| == |set k | k in s.orders.rows && s.orders.rows[k].tenantId == tenantId|
    ensures DistinctPeriods(reply.data) && Ascending(reply.data)
  {
    var matches := (o: Order) => o.tenantId == tenantId;
    ListedAllSound(s.orders.rows, matches, Older, orders);
    assert Matching(s.orders.rows, matches) == set k | k in s.orders.rows && s.orders.rows[k].tenantId == tenantId;
    TallyDistinct(orders, Month);
    OldestFirst(orders, Month);
    TallyAscending(orders, Month);
  }
}
