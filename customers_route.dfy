/**
 * The customers routes: the paginated list of a tenant's customers, searched by email or name
 * and most recently stored first; and one customer with their ten newest orders.
 */
module CustomersRoute {
  import opened Wrappers
  import opened Text
  import opened Records
  import opened Upsert
  import opened Database
  import opened Listing
  import OrdersRoute

  const FetchCustomersFailed: string := "Failed to fetch customers"
  const CustomerNotFound: string := "Customer not found"

  /** The columns the search looks in. */
  datatype CustomerColumn = EmailColumn | FirstNameColumn | LastNameColumn

  function ColumnOf(c: Customer, column: CustomerColumn): Option<string> {
    match column
    case EmailColumn => c.email
    case FirstNameColumn => c.firstName
    case LastNameColumn => c.lastName
  }

  /** The query of the list route; `search` is used only when non-empty. */
  datatype CustomerQuery = CustomerQuery(paging: PageQuery, search: Option<string>)

  /** The `where` object: the tenant, and an optional `OR` list. */
  datatype CustomerWhere = CustomerWhere(tenantId: TenantId, anyOf: Option<seq<Condition<CustomerColumn>>>)

  predicate CustomerMatches(w: CustomerWhere, c: Customer) {
    c.tenantId == w.tenantId && AnyHolds(w.anyOf, ColumnOf, c)
  }

  /** The customers a query asks for: the tenant's whose email, first or last name holds the search text. */
  predicate CustomerFilter(tenantId: TenantId, q: CustomerQuery, c: Customer) {
    && c.tenantId == tenantId
    && (Given(q.search) ==>
          ColumnContains(c.email, q.search.value)
          || ColumnContains(c.firstName, q.search.value)
          || ColumnContains(c.lastName, q.search.value))
  }

  /** Builds the `where` object as the route does. */
  method BuildCustomerWhere(tenantId: TenantId, q: CustomerQuery) returns (w: CustomerWhere)
    ensures forall c :: CustomerMatches(w, c) <==> CustomerFilter(tenantId, q, c)
  {
    w := CustomerWhere(tenantId, None);
    if Given(q.search) {
      var text := q.search.value;
      w := w.(anyOf := Some([ContainsText(EmailColumn, text), ContainsText(FirstNameColumn, text), ContainsText(LastNameColumn, text)]));
      assert forall c :: CustomerFilter(tenantId, q, c) ==> CustomerMatches(w, c) by {
        forall c | CustomerFilter(tenantId, q, c) ensures AnyHolds(w.anyOf, ColumnOf, c) {
          var conds := w.anyOf.value;
          if ColumnContains(c.email, text) {
            assert ColumnContains(ColumnOf(c, conds[0].field), conds[0].text);
          } else if ColumnContains(c.firstName, text) {
            assert ColumnContains(ColumnOf(c, conds[1].field), conds[1].text);
          } else {
            assert ColumnContains(ColumnOf(c, conds[2].field), conds[2].text);
          }
        }
      }
    }
  }

  /**
   * `orderBy: { createdAt: 'desc' }`: the row stored later comes first. Rows get increasing ids
   * as they are stored, so the later row is the one with the larger id.
   */
  predicate StoredLater(a: Customer, b: Customer) {
    a.id > b.id
  }

  ghost predicate CustomersReply(s: Snapshot, w: CustomerWhere, q: CustomerQuery, reply: ListReply<Customer>) {
    ListResponse(s.customers.rows, (c: Customer) => CustomerMatches(w, c), StoredLater, q.paging, FetchCustomersFailed, reply)
  }

  /**
   * The list route: it fails exactly on a bad page window; otherwise every listed customer is a
   * stored customer of the tenant the search asks for, most recently stored first, and `total`
   * counts all of them.
   */
  lemma CustomersListing(s: Snapshot, tenantId: TenantId, q: CustomerQuery, w: CustomerWhere, reply: ListReply<Customer>)
    requires forall c :: CustomerMatches(w, c) <==> CustomerFilter(tenantId, q, c)
    requires CustomersReply(s, w, q, reply)
    ensures reply.ListFailed? <==> Paging(q.paging).None?
    ensures reply.Listed? ==>
              && |reply.rows| <= Abs(reply.limit)
              && (forall i :: 0 <= i < |reply.rows| ==>
                    CustomerFilter(tenantId, q, reply.rows[i]) && reply.rows[i] in s.customers.rows.Values)
              && (forall i, j :: 0 <= i < j < |reply.rows| ==> reply.rows[i].id >= reply.rows[j].id)
              && reply.total == |set k | k in s.customers.rows && CustomerFilter(tenantId, q, s.customers.rows[k])|
  {
    var matches := (c: Customer) => CustomerMatches(w, c);
    ListResponseSound(s.customers.rows, matches, StoredLater, q.paging, FetchCustomersFailed, reply);
    assert Matching(s.customers.rows, matches) == set k | k in s.customers.rows && CustomerFilter(tenantId, q, s.customers.rows[k]);
  }

  /** Search text and names are compared without regard to case. */
  lemma SearchIgnoresCase(tenantId: TenantId, c: Customer, search: string)
    requires c.tenantId == tenantId && c.firstName == Some(search) && search != ""
    ensures CustomerFilter(tenantId, CustomerQuery(PageQuery(Absent, Absent), Some(Lower(search))), c)
  {
    LowerIdempotent(search);
    assert OccursAt(Lower(search), Lower(Lower(search)), 0);
  }

  /** Two search texts that differ only in the case of their letters select the same customers. */
  lemma SearchFoldsCase(tenantId: TenantId, paging: PageQuery, a: string, b: string, c: Customer)
    requires Lower(a) == Lower(b)
    ensures CustomerFilter(tenantId, CustomerQuery(paging, Some(a)), c) <==> CustomerFilter(tenantId, CustomerQuery(paging, Some(b)), c)
  {
  }

  lemma {:induction false} LowerIdempotent(s: string)
    ensures Lower(Lower(s)) == Lower(s)
  {
    if |s| > 0 {
      LowerIdempotent(s[1..]);
      assert Lower(s)[1..] == Lower(s[1..]);
    }
  }

  // ---- One customer ----

  /** A customer with the orders listed alongside. */
  datatype CustomerDetail = CustomerDetail(customer: Customer, orders: seq<Order>)

  /** The orders whose `customerId` points at customer row `id`. */
  predicate OrderOf(id: RowId, o: Order) {
    o.customerId == Some(id)
  }

  /**
   * The reply of the detail route: 404 unless the tenant has a customer with that row id;
   * otherwise that customer with a page of at most ten of their orders, newest first.
   */
  ghost predicate CustomerReply(s: Snapshot, tenantId: TenantId, id: RowId, reply: Lookup<CustomerDetail>) {
    match FindFirst(s.customers.rows, (c: Customer) => c.id == id && c.tenantId == tenantId)
    case None => reply == Missing(404, CustomerNotFound)
    case Some(c) =>
      && reply.Found? && reply.row.customer == c
      && ListedPage(s.orders.rows, (o: Order) => OrderOf(c.id, o), OrdersRoute.Newer, 0, 10, reply.row.orders)
  }

  /**
   * The detail route never answers with another tenant's customer, and lists the customer's ten
   * newest orders (all of them when they have fewer).
   */
  lemma CustomerDetailSound(s: Snapshot, tenantId: TenantId, id: RowId, reply: Lookup<CustomerDetail>)
    requires CustomerReply(s, tenantId, id, reply)
    ensures reply.Found? <==> exists k :: k in s.customers.rows && s.customers.rows[k].id == id && s.customers.rows[k].tenantId == tenantId
    ensures reply.Missing? ==> reply == Missing(404, CustomerNotFound)
    ensures reply.Found? ==>
              var c, orders := reply.row.customer, reply.row.orders;
              && c in s.customers.rows.Values && c.id == id && c.tenantId == tenantId
              && |orders| == (var n := |Matching(s.orders.rows, (o: Order) => OrderOf(id, o))|; if n < 10 then n else 10)
              && (forall i :: 0 <= i < |orders| ==> orders[i].customerId == Some(id) && orders[i] in s.orders.rows.Values)
              && (forall i, j :: 0 <= i < j < |orders| ==> !OrdersRoute.Newer(orders[j], orders[i]))
  {
    if reply.Found? {
      var c := reply.row.customer;
      ListedPageSound(s.orders.rows, (o: Order) => OrderOf(c.id, o), OrdersRoute.Newer, 0, 10, reply.row.orders);
    }
  }
}
