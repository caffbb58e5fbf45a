/**
 * The orders routes: the paginated list of a tenant's orders, filtered by financial status
 * and by a creation-date range and newest first, each with its customer's name and email; and
 * one order with its customer and line items.
 */
module OrdersRoute {
  import opened Wrappers
  import opened Text
  import opened Records
  import opened Upsert
  import opened Database
  import opened Listing

  const FetchOrdersFailed: string := "Failed to fetch orders"
  const OrderNotFound: string := "Order not found"

  /** `new Date(text)`: a date, or the invalid date the store refuses. */
  datatype JsDate = Date(iso: Timestamp) | InvalidDate

  /**
   * The query of the list route. A date parameter is `None` when absent or empty (falsy), and
   * otherwise what `new Date` makes of its text.
   */
  datatype OrderQuery = OrderQuery(paging: PageQuery, status: Option<string>, startDate: Option<JsDate>, endDate: Option<JsDate>)

  /** `{ gte?, lte? }` on the creation date. */
  datatype DateRange = DateRange(gte: Option<JsDate>, lte: Option<JsDate>)

  /** The `where` object the list route hands to the store. */
  datatype OrderWhere = OrderWhere(tenantId: TenantId, financialStatus: Option<string>, createdAtShopify: Option<DateRange>)

  predicate AtOrAfter(t: Timestamp, bound: Option<JsDate>) {
    bound.Some? && bound.value.Date? ==> LexLe(bound.value.iso, t)
  }

  predicate AtOrBefore(t: Timestamp, bound: Option<JsDate>) {
    bound.Some? && bound.value.Date? ==> LexLe(t, bound.value.iso)
  }

  /** How the store reads an `OrderWhere`: a date range never selects an undated order. */
  predicate OrderMatches(w: OrderWhere, o: Order) {
    && o.tenantId == w.tenantId
    && (w.financialStatus.Some? ==> o.financialStatus == w.financialStatus)
    && (w.createdAtShopify.Some? ==>
          && o.createdAtShopify.Some?
          && AtOrAfter(o.createdAtShopify.value, w.createdAtShopify.value.gte)
          && AtOrBefore(o.createdAtShopify.value, w.createdAtShopify.value.lte))
  }

  /** A `where` object with an invalid date makes the store throw. */
  predicate Usable(w: OrderWhere) {
    w.createdAtShopify.Some? ==>
      w.createdAtShopify.value.gte != Some(InvalidDate) && w.createdAtShopify.value.lte != Some(InvalidDate)
  }

  predicate HasInvalidDate(q: OrderQuery) {
    q.startDate == Some(InvalidDate) || q.endDate == Some(InvalidDate)
  }

  /**
   * The orders a query asks for: the tenant's, with the given financial status when a non-empty
   * one is given, and created inside the given bounds (both inclusive) when a bound is given.
   */
  predicate OrderFilter(tenantId: TenantId, q: OrderQuery, o: Order) {
    && o.tenantId == tenantId
    && (Given(q.status) ==> o.financialStatus == q.status)
    && (q.startDate.Some? || q.endDate.Some? ==> o.createdAtShopify.Some?)
    && (o.createdAtShopify.Some? ==>
          AtOrAfter(o.createdAtShopify.value, q.startDate) && AtOrBefore(o.createdAtShopify.value, q.endDate))
  }

  /** `w` selects exactly the orders the query asks for, and fails exactly when a date is invalid. */
  ghost predicate BuiltFor(w: OrderWhere, tenantId: TenantId, q: OrderQuery) {
    && (forall o :: OrderMatches(w, o) <==> OrderFilter(tenantId, q, o))
    && (Usable(w) <==> !HasInvalidDate(q))
  }

  /** Builds the `where` object step by step, as the route does. */
  method BuildOrderWhere(tenantId: TenantId, q: OrderQuery) returns (w: OrderWhere)
    ensures BuiltFor(w, tenantId, q)
  {
    w := OrderWhere(tenantId, None, None);
    if Given(q.status) {
      w := w.(financialStatus := q.status);
    }
    if q.startDate.Some? || q.endDate.Some? {
      w := w.(createdAtShopify := Some(DateRange(None, None)));
      if q.startDate.Some? {
        w := w.(createdAtShopify := Some(w.createdAtShopify.value.(gte := q.startDate)));
      }
      if q.endDate.Some? {
        w := w.(createdAtShopify := Some(w.createdAtShopify.value.(lte := q.endDate)));
      }
    }
  }

  /** `orderBy: { createdAtShopify: 'desc' }`: `a` must come before `b` when it was created later. */
  predicate Newer(a: Order, b: Order) {
    a.createdAtShopify.Some? && b.createdAtShopify.Some?
    && LexLe(b.createdAtShopify.value, a.createdAtShopify.value) && a.createdAtShopify != b.createdAtShopify
  }

  // ---- The listed rows ----

  /** The customer columns the list includes. */
  datatype CustomerBrief = CustomerBrief(id: RowId, email: Option<string>, firstName: Option<string>, lastName: Option<string>)

  datatype OrderView = OrderView(order: Order, customer: Option<CustomerBrief>)

  /** The customer row an order's `customerId` refers to. */
  ghost function CustomerById(s: Snapshot, id: Option<RowId>): (r: Option<Customer>)
    ensures r.Some? ==> id.Some? && r.value in s.customers.rows.Values && r.value.id == id.value
    ensures id.Some? && (exists k :: k in s.customers.rows && s.customers.rows[k].id == id.value) ==> r.Some?
  {
    if id.None? then None else FindFirst(s.customers.rows, (c: Customer) => c.id == id.value)
  }

  function Brief(c: Customer): CustomerBrief {
    CustomerBrief(c.id, c.email, c.firstName, c.lastName)
  }

  ghost function ViewOf(s: Snapshot, o: Order): OrderView {
    var c := CustomerById(s, o.customerId);
    OrderView(o, if c.Some? then Some(Brief(c.value)) else None)
  }

  /** Every order with its customer included, under the order's key. */
  ghost function OrderViews(s: Snapshot): map<Key, OrderView> {
    map k | k in s.orders.rows :: ViewOf(s, s.orders.rows[k])
  }

  /** The reply of the list route for the `where` object it built. */
  ghost predicate OrdersReply(s: Snapshot, w: OrderWhere, q: OrderQuery, reply: ListReply<OrderView>) {
    if !Usable(w) then reply == ListFailed(FetchOrdersFailed)
    else ListResponse(OrderViews(s), (v: OrderView) => OrderMatches(w, v.order),
                      (a: OrderView, b: OrderView) => Newer(a.order, b.order), q.paging, FetchOrdersFailed, reply)
  }

  /**
   * The list route: it fails exactly on a bad page window or an invalid date; otherwise every
   * listed order is one the query asks for, stored for the tenant, newest first, with the
   * customer its `customerId` names, and `total` counts all the orders the query asks for.
   */
  lemma OrdersListing(s: Snapshot, tenantId: TenantId, q: OrderQuery, w: OrderWhere, reply: ListReply<OrderView>)
    requires BuiltFor(w, tenantId, q) && OrdersReply(s, w, q, reply)
    ensures reply.ListFailed? <==> Paging(q.paging).None? || HasInvalidDate(q)
    ensures reply.Listed? ==>
              && |reply.rows| <= Abs(reply.limit)
              && (forall i :: 0 <= i < |reply.rows| ==>
                    && OrderFilter(tenantId, q, reply.rows[i].order)
                    && reply.rows[i].order in s.orders.rows.Values
                    && reply.rows[i] == ViewOf(s, reply.rows[i].order))
              && (forall i, j :: 0 <= i < j < |reply.rows| ==> !Newer(reply.rows[j].order, reply.rows[i].order))
              && reply.total == |set k | k in s.orders.rows && OrderFilter(tenantId, q, s.orders.rows[k])|
  {
    if Usable(w) {
      var views := OrderViews(s);
      var matches := (v: OrderView) => OrderMatches(w, v.order);
      var before := (a: OrderView, b: OrderView) => Newer(a.order, b.order);
      ListResponseSound(views, matches, before, q.paging, FetchOrdersFailed, reply);
      if reply.Listed? {
        forall i | 0 <= i < |reply.rows|
          ensures reply.rows[i].order in s.orders.rows.Values && reply.rows[i] == ViewOf(s, reply.rows[i].order)
        {
          assert reply.rows[i] in views.Values;
          var k :| k in views && views[k] == reply.rows[i];
        }
        assert Matching(views, matches) == set k | k in s.orders.rows && OrderFilter(tenantId, q, s.orders.rows[k]);
      }
    }
  }

  /** Both bounds are inclusive: an order created at the very instant of either bound is listed. */
  lemma BoundsInclusive(tenantId: TenantId, o: Order, t: Timestamp)
    requires o.tenantId == tenantId && o.createdAtShopify == Some(t)
    ensures OrderFilter(tenantId, OrderQuery(PageQuery(Absent, Absent), None, Some(Date(t)), Some(Date(t))), o)
  {
    LexLeReflexive(t);
  }

  /** A date range leaves out the orders without a creation date, whatever the bounds. */
  lemma RangeDropsUndated(tenantId: TenantId, q: OrderQuery, o: Order)
    requires q.startDate.Some? || q.endDate.Some?
    requires o.createdAtShopify.None?
    ensures !OrderFilter(tenantId, q, o)
  {
  }

  // ---- One order ----

  /** The items of an order are exactly the stored items that point at it. */
  lemma {:induction false} ItemsOfExact(items: seq<OrderItem>, orderId: RowId)
    ensures forall item :: item in ItemsOf(items, orderId) <==> item in items && item.orderId == orderId
  {
    if items != [] {
      ItemsOfExact(items[1..], orderId);
      assert items == [items[0]] + items[1..];
    }
  }

  datatype OrderDetail = OrderDetail(order: Order, customer: Option<Customer>, items: seq<OrderItem>)

  /**
   * One order by row id, only among the tenant's orders, with its customer and line items; 404
   * when the tenant has no order with that id.
   */
  ghost function GetOrder(s: Snapshot, tenantId: TenantId, id: RowId): (r: Lookup<OrderDetail>)
    ensures r.Found? <==> exists k :: k in s.orders.rows && s.orders.rows[k].id == id && s.orders.rows[k].tenantId == tenantId
    ensures r.Found? ==>
              && r.row.order in s.orders.rows.Values
              && r.row.order.id == id && r.row.order.tenantId == tenantId
              && r.row.customer == CustomerById(s, r.row.order.customerId)
              && (forall item :: item in r.row.items <==> item in s.orderItems && item.orderId == id)
    ensures r.Missing? ==> r == Missing(404, OrderNotFound)
  {
    match FindFirst(s.orders.rows, (o: Order) => o.id == id && o.tenantId == tenantId)
    case None => Missing(404, OrderNotFound)
    case Some(o) =>
      ItemsOfExact(s.orderItems, o.id);
      Found(OrderDetail(o, CustomerById(s, o.customerId), ItemsOf(s.orderItems, o.id)))
  }
}
