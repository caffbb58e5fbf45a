/**
 * What the pull synchronisation guarantees, stated about the run functions of `Sync` (which the
 * methods of `SyncService` are proved to compute): keys stay unique, re-running a customer sync
 * changes nothing, draft orders carry their fixed columns and customer binding, line items are
 * replaced wholesale, customer totals agree with the orders table, and every sync-log row is
 * closed as the run ended.
 */
module SyncProperties {
  import opened Wrappers
  import opened Text
  import opened Records
  import opened Upsert
  import opened Shopify
  import opened Database
  import opened Sync

  // ---- Customers ----

  /** A second update of a customer row is the same as the last one alone. */
  lemma CustomerUpdateOverwrites()
    ensures LastWriteWins(UpdatedCustomer)
  {
    forall row: Customer, a: RawCustomer, b: RawCustomer
      ensures UpdatedCustomer(UpdatedCustomer(row, a), b) == UpdatedCustomer(row, b)
    {
    }
  }

  /** Updating a customer row with the record that created it leaves it as created. */
  lemma CustomerCreateAgrees()
    ensures CreateAgrees(NewCustomer, UpdatedCustomer)
  {
    forall c: RawCustomer, tenant: TenantId, id: RowId
      ensures UpdatedCustomer(NewCustomer(c, tenant, id), c) == NewCustomer(c, tenant, id)
    {
    }
  }

  /**
   * Running `syncCustomers` twice on the same fetched list leaves the customer table (rows and
   * row-id counter) exactly as the first run left it.
   */
  lemma CustomersRunIdempotent(s: Snapshot, tenant: TenantId, rs: seq<RawCustomer>)
    ensures var once := CustomersRun(s, tenant, Fetched(rs), None).after;
            CustomersRun(once, tenant, Fetched(rs), None).after.customers == once.customers
  {
    CustomerUpdateOverwrites();
    CustomerCreateAgrees();
    UpsertAllIdempotent(s.customers, rs, tenant, RawCustomerKey, NewCustomer, UpdatedCustomer);
    assert Written(Fetched(rs), None) == rs;
  }

  lemma CustomerKeysKept()
    ensures KeepsKeys(RawCustomerKey, NewCustomer, UpdatedCustomer, CustomerKey)
  {
    forall c: RawCustomer, tenant: TenantId, id: RowId
      ensures CustomerKey(NewCustomer(c, tenant, id)) == RawCustomerKey(c, tenant)
    {
    }
  }

  /** After `syncCustomers`, every customer row still sits under its own (external id, tenant) key. */
  lemma CustomersRunKeyed(s: Snapshot, tenant: TenantId, fetched: Fetch<RawCustomer>, fault: Option<StoreFault>)
    requires KeyedBy(s.customers.rows, CustomerKey)
    ensures KeyedBy(CustomersRun(s, tenant, fetched, fault).after.customers.rows, CustomerKey)
  {
    CustomerKeysKept();
    UpsertAllKeyed(s.customers, Written(fetched, fault), tenant, RawCustomerKey, NewCustomer, UpdatedCustomer, CustomerKey);
  }

  /**
   * `syncCustomers` writes only the customer table and its own log row; a fetch that did not
   * succeed writes no customer.
   */
  lemma CustomersRunFrame(s: Snapshot, tenant: TenantId, fetched: Fetch<RawCustomer>, fault: Option<StoreFault>)
    ensures var r := CustomersRun(s, tenant, fetched, fault);
            && r.outcome == Outcome(fetched, fault)
            && r.after.orders == s.orders && r.after.orderItems == s.orderItems && r.after.products == s.products
            && r.after.syncLogs == s.syncLogs + [ClosedLog(CustomersSync, tenant, r.outcome, |Written(fetched, fault)|)]
            && (!fetched.Fetched? ==> r.after.customers == s.customers)
  {
  }

  // ---- Products ----

  lemma ProductKeysKept()
    ensures KeepsKeys(RawProductKey, NewProduct, UpdatedProduct, ProductKey)
  {
    forall p: RawProduct, tenant: TenantId, id: RowId
      ensures ProductKey(NewProduct(p, tenant, id)) == RawProductKey(p, tenant)
    {
    }
  }

  /** After `syncProducts`, every product row still sits under its own (external id, tenant) key. */
  lemma ProductsRunKeyed(s: Snapshot, tenant: TenantId, fetched: Fetch<RawProduct>, fault: Option<StoreFault>)
    requires KeyedBy(s.products.rows, ProductKey)
    ensures KeyedBy(ProductsRun(s, tenant, fetched, fault).after.products.rows, ProductKey)
  {
    ProductKeysKept();
    UpsertAllKeyed(s.products, Written(fetched, fault), tenant, RawProductKey, NewProduct, UpdatedProduct, ProductKey);
  }

  /** `syncProducts` writes only the product table and its own log row. */
  lemma ProductsRunFrame(s: Snapshot, tenant: TenantId, fetched: Fetch<RawProduct>, fault: Option<StoreFault>)
    ensures var r := ProductsRun(s, tenant, fetched, fault);
            && r.outcome == Outcome(fetched, fault)
            && r.after.customers == s.customers && r.after.orders == s.orders && r.after.orderItems == s.orderItems
            && r.after.syncLogs == s.syncLogs + [ClosedLog(ProductsSync, tenant, r.outcome, |Written(fetched, fault)|)]
            && (!fetched.Fetched? ==> r.after.products == s.products)
  {
  }

  /** `syncOrders` appends exactly its own log row, closed as the run ended. */
  lemma OrdersRunLog(s: Snapshot, tenant: TenantId, fetched: Fetch<RawDraftOrder>, fault: Option<StoreFault>)
    ensures var r := OrdersRun(s, tenant, fetched, fault);
            && r.outcome == Outcome(fetched, fault)
            && r.after.products == s.products
            && r.after.syncLogs == s.syncLogs + [ClosedLog(OrdersSync, tenant, r.outcome, |Written(fetched, fault)|)]
  {
  }

  // ---- Sync-log rows ----

  /**
   * How a sub-sync leaves its log row: `completed` with the number of fetched records; `failed`
   * with the number written before the error and the error's message, whether the error came
   * from the fetch, from the writes of a record or after the last record; a page walk that never
   * ends leaves it `started`.
   */
  lemma RunLogClosed<R>(kind: SyncType, tenant: TenantId, fetched: Fetch<R>, fault: Option<StoreFault>)
    ensures var log := ClosedLog(kind, tenant, Outcome(fetched, fault), |Written(fetched, fault)|);
            && log.syncType == kind && log.tenantId == tenant
            && (fetched.Fetched? && !Fires(fault, |fetched.records|) ==>
                  log == SyncLog(kind, Completed, |fetched.records|, None, tenant))
            && (fetched.Fetched? && HitsRecord(fault, |fetched.records|) ==>
                  log == SyncLog(kind, SyncStatus.Failed, fault.value.at, Some(fault.value.error.message), tenant))
            && (fetched.Fetched? && fault.Some? && fault.value.LateFault? ==>
                  log == SyncLog(kind, SyncStatus.Failed, |fetched.records|, Some(fault.value.error.message), tenant))
            && (fetched.Failed? ==> log == SyncLog(kind, SyncStatus.Failed, 0, Some(fetched.error.message), tenant))
            && (fetched.Stalled? ==> log == StartedLog(kind, tenant))
  {
  }

  // ---- One draft order ----

  /** The order a draft lands on, after the draft was reconciled. */
  function DraftRow(r: Snapshot, d: RawDraftOrder, tenant: TenantId): Order
    requires DraftKey(d.id, tenant) in r.orders.rows
  {
    r.orders.rows[DraftKey(d.id, tenant)]
  }

  /**
   * A reconciled draft is stored under `"draft_" + id` with the draft columns (financial status
   * `draft`, no fulfilment status, `isDraft`, no discounts), its name as order number and its
   * status as draft status; no other order changes.
   */
  lemma DraftStored(s: Snapshot, d: RawDraftOrder, tenant: TenantId)
    ensures var r := ReconcileDraft(s, d, tenant);
            var o := DraftRow(r, d, tenant);
            && DraftShaped(o) && o.orderNumber == d.name && o.draftStatus == d.status
            && r.orders.rows.Keys == s.orders.rows.Keys + {DraftKey(d.id, tenant)}
            && (forall k :: k in s.orders.rows && k != DraftKey(d.id, tenant) ==> r.orders.rows[k] == s.orders.rows[k])
            && (DraftKey(d.id, tenant) !in s.orders.rows ==> o.id == s.orders.nextId && o.processedAt.None?)
            && (DraftKey(d.id, tenant) in s.orders.rows ==>
                  o.id == s.orders.rows[DraftKey(d.id, tenant)].id
                  && o.createdAtShopify == s.orders.rows[DraftKey(d.id, tenant)].createdAtShopify)
  {
  }

  /**
   * The customer binding: a draft with a customer id upserts that customer and references it by
   * external id and row id; a draft without one references nobody and leaves the customers alone.
   */
  lemma DraftCustomerBound(s: Snapshot, d: RawDraftOrder, tenant: TenantId)
    ensures var r := ReconcileDraft(s, d, tenant);
            var o := DraftRow(r, d, tenant);
            && (HasCustomer(d) ==>
                  var ck := NaturalKey(d.customer.value.id, tenant);
                  && ck in r.customers.rows
                  && o.customerShopifyId == Some(NatToString(d.customer.value.id))
                  && o.customerId == Some(r.customers.rows[ck].id))
            && (!HasCustomer(d) ==> o.customerShopifyId.None? && o.customerId.None? && r.customers == s.customers)
  {
  }

  /**
   * The nested customer upsert never touches the totals or the marketing flag of an existing
   * customer; a customer it creates starts at zero totals, not opted in.
   */
  lemma NestedCustomerKeepsTotals(s: Snapshot, d: RawDraftOrder, tenant: TenantId)
    requires HasCustomer(d)
    ensures var r := ReconcileDraft(s, d, tenant);
            var ck := NaturalKey(d.customer.value.id, tenant);
            var c := r.customers.rows[ck];
            && (ck in s.customers.rows ==>
                  var c0 := s.customers.rows[ck];
                  c.id == c0.id && c.ordersCount == c0.ordersCount && c.totalSpent == c0.totalSpent
                  && c.acceptsMarketing == c0.acceptsMarketing)
            && (ck !in s.customers.rows ==>
                  c.id == s.customers.nextId && c.ordersCount == 0 && c.totalSpent == 0 && !c.acceptsMarketing)
            && (forall k :: k in s.customers.rows && k != ck ==> r.customers.rows[k] == s.customers.rows[k])
  {
  }

  /**
   * Line items: a non-empty list becomes exactly the items of the order, in list order, and the
   * items of every other order stay as they were; an empty or absent list leaves all items alone.
   */
  lemma DraftItemsReplaced(s: Snapshot, d: RawDraftOrder, tenant: TenantId, other: RowId)
    ensures var r := ReconcileDraft(s, d, tenant);
            var id := DraftRow(r, d, tenant).id;
            && (d.lineItems.Some? && |d.lineItems.value| > 0 ==>
                  && ItemsOf(r.orderItems, id) == NewItems(d.lineItems.value, id)
                  && (other != id ==> ItemsOf(r.orderItems, other) == ItemsOf(s.orderItems, other)))
            && (d.lineItems.None? || |d.lineItems.value| == 0 ==> r.orderItems == s.orderItems)
  {
    var r := ReconcileDraft(s, d, tenant);
    var id := DraftRow(r, d, tenant).id;
    if d.lineItems.Some? && |d.lineItems.value| > 0 {
      ItemsReplaced(s.orderItems, id, d.lineItems.value, other);
    }
  }

  /**
   * A draft whose `n`-th write threw keeps the writes before it: the customer upsert as the full
   * reconciliation makes it, then the order upsert, then the `deleteMany` of the order's items
   * and the first line items, each `create` adding one; nothing else changes.
   */
  lemma DraftPartlyWritten(s: Snapshot, d: RawDraftOrder, tenant: TenantId, n: nat, other: RowId)
    requires n < DraftWriteCount(d)
    ensures var r := DraftPrefix(s, d, tenant, n);
            var full := ReconcileDraft(s, d, tenant);
            var c := if HasCustomer(d) then 1 else 0;
            && (n == 0 ==> r == s)
            && (n >= 1 ==> r.customers == full.customers)
            && (n <= c ==> r.orders == s.orders && r.orderItems == s.orderItems)
            && (n > c ==> r.orders == full.orders)
            && (n == c + 1 ==> r.orderItems == s.orderItems)
            && (n >= c + 2 ==>
                  var id := DraftRow(r, d, tenant).id;
                  && ItemsOf(r.orderItems, id) == NewItems(d.lineItems.value[..n - c - 2], id)
                  && (other != id ==> ItemsOf(r.orderItems, other) == ItemsOf(s.orderItems, other)))
  {
    var c := if HasCustomer(d) then 1 else 0;
    if n >= c + 2 {
      var r := DraftPrefix(s, d, tenant, n);
      ItemsReplaced(s.orderItems, DraftRow(r, d, tenant).id, d.lineItems.value[..n - c - 2], other);
    }
  }

  // ---- Keys of the order run ----

  lemma DraftKeysKept()
    ensures forall b: BoundDraft, tenant: TenantId, id: RowId :: OrderKey(NewDraftOrder(b, tenant, id)) == DraftOrderKey(b, tenant)
    ensures forall o: Order, b: BoundDraft :: OrderKey(UpdatedDraftOrder(o, b)) == OrderKey(o)
  {
  }

  lemma NestedCustomerKeysKept()
    ensures KeepsKeys(RawCustomerKey, NewNestedCustomer, UpdatedNestedCustomer, CustomerKey)
  {
    forall c: RawCustomer, tenant: TenantId, id: RowId
      ensures CustomerKey(NewNestedCustomer(c, tenant, id)) == RawCustomerKey(c, tenant)
    {
    }
  }

  /** One draft order keeps the customer and order tables keyed. */
  lemma DraftKeyed(s: Snapshot, d: RawDraftOrder, tenant: TenantId)
    requires KeyedBy(s.customers.rows, CustomerKey) && KeyedBy(s.orders.rows, OrderKey)
    ensures var r := ReconcileDraft(s, d, tenant);
            KeyedBy(r.customers.rows, CustomerKey) && KeyedBy(r.orders.rows, OrderKey)
  {
    var customers :=
      if HasCustomer(d) then Step(s.customers, d.customer.value, tenant, RawCustomerKey, NewNestedCustomer, UpdatedNestedCustomer)
      else s.customers;
    if HasCustomer(d) {
      NestedCustomerKeysKept();
      StepKeyed(s.customers, d.customer.value, tenant, RawCustomerKey, NewNestedCustomer, UpdatedNestedCustomer, CustomerKey);
    }
    var bound :=
      if HasCustomer(d) then BoundDraft(d, Some(NatToString(d.customer.value.id)), Some(customers.rows[NaturalKey(d.customer.value.id, tenant)].id))
      else BoundDraft(d, None, None);
    DraftKeysKept();
    StepKeyed(s.orders, bound, tenant, DraftOrderKey, NewDraftOrder, UpdatedDraftOrder, OrderKey);
  }

  lemma {:induction false} DraftsKeyed(s: Snapshot, ds: seq<RawDraftOrder>, tenant: TenantId)
    requires KeyedBy(s.customers.rows, CustomerKey) && KeyedBy(s.orders.rows, OrderKey)
    ensures var r := ReconcileDrafts(s, ds, tenant);
            KeyedBy(r.customers.rows, CustomerKey) && KeyedBy(r.orders.rows, OrderKey)
    decreases |ds|
  {
    if ds != [] {
      DraftsKeyed(s, ds[..|ds| - 1], tenant);
      DraftKeyed(ReconcileDrafts(s, ds[..|ds| - 1], tenant), ds[|ds| - 1], tenant);
    }
  }

  /** The writes of a draft before a failed one keep the customer and order tables keyed. */
  lemma DraftPrefixKeyed(s: Snapshot, d: RawDraftOrder, tenant: TenantId, n: nat)
    requires n < DraftWriteCount(d)
    requires KeyedBy(s.customers.rows, CustomerKey) && KeyedBy(s.orders.rows, OrderKey)
    ensures var r := DraftPrefix(s, d, tenant, n);
            KeyedBy(r.customers.rows, CustomerKey) && KeyedBy(r.orders.rows, OrderKey)
  {
    DraftKeyed(s, d, tenant);
    DraftPartlyWritten(s, d, tenant, n, 0);
  }

  /** Recomputing the totals of some customers keeps the customer table keyed. */
  lemma StatisticsKeyed(customers: map<Key, Customer>, orders: map<Key, Order>, tenant: TenantId, todo: set<Key>)
    requires KeyedBy(customers, CustomerKey)
    ensures KeyedBy(Refreshing(customers, orders, tenant, todo), CustomerKey)
  {
    var w := Refreshing(customers, orders, tenant, todo);
    forall k | k in w ensures CustomerKey(w[k]) == k {
      assert CustomerKey(w[k]) == CustomerKey(customers[k]);
    }
  }

  /** After `syncOrders`, every customer row and every order row still sits under its own key. */
  lemma OrdersRunKeyed(s: Snapshot, tenant: TenantId, fetched: Fetch<RawDraftOrder>, fault: Option<StoreFault>)
    requires KeyedBy(s.customers.rows, CustomerKey) && KeyedBy(s.orders.rows, OrderKey)
    ensures var r := OrdersRun(s, tenant, fetched, fault).after;
            KeyedBy(r.customers.rows, CustomerKey) && KeyedBy(r.orders.rows, OrderKey)
  {
    if fetched.Fetched? {
      var rs := fetched.records;
      var s0 := Opened(s, OrdersSync, tenant);
      var s1 := ReconcileDrafts(s0, Written(fetched, fault), tenant);
      DraftsKeyed(s0, Written(fetched, fault), tenant);
      if HitsRecord(fault, |rs|) {
        var d := rs[fault.value.at];
        DraftPrefixKeyed(s1, d, tenant, ThrowPoint(d, fault.value.step));
      } else {
        StatisticsKeyed(s1.customers.rows, s1.orders.rows, tenant, Unreached(s1.customers.rows, fault));
      }
    }
  }

  // ---- Customer statistics ----

  /**
   * When `syncOrders` wrote every record, each customer of the tenant that the statistics pass
   * reached carries the sum of `totalPrice` and the count of the tenant's orders that name it, in
   * the orders table the run leaves behind; the customers it did not reach (a store error cut the
   * pass short) and other tenants' customers are as the draft orders left them.
   */
  lemma StatisticsMatchOrders(s: Snapshot, tenant: TenantId, fetched: Fetch<RawDraftOrder>, fault: Option<StoreFault>)
    requires fetched.Fetched? && !HitsRecord(fault, |fetched.records|)
    ensures var a := OrdersRun(s, tenant, fetched, fault).after;
            var s1 := ReconcileDrafts(Opened(s, OrdersSync, tenant), fetched.records, tenant);
            var unreached := Unreached(s1.customers.rows, fault);
            && a.orders == s1.orders && a.orderItems == s1.orderItems
            && a.customers.rows.Keys == s1.customers.rows.Keys
            && (forall k :: k in a.customers.rows && a.customers.rows[k].tenantId == tenant && k !in unreached ==>
                  var ks := OrdersOf(a.orders.rows, tenant, a.customers.rows[k].shopifyCustomerId);
                  a.customers.rows[k].totalSpent == SpentOver(a.orders.rows, ks)
                  && a.customers.rows[k].ordersCount == |ks|)
            && (forall k :: k in a.customers.rows && (a.customers.rows[k].tenantId != tenant || k in unreached) ==>
                  a.customers.rows[k] == s1.customers.rows[k])
            && (fault.None? || fault.value.WriteFault? ==> unreached == {})
  {
  }

  /** A customer table's totals as a run that did not recompute them leaves them. */
  ghost predicate TotalsKept(before: map<Key, Customer>, after: map<Key, Customer>) {
    && before.Keys <= after.Keys
    && (forall k :: k in after ==>
          if k in before then after[k].totalSpent == before[k].totalSpent && after[k].ordersCount == before[k].ordersCount
          else after[k].totalSpent == 0 && after[k].ordersCount == 0)
  }

  /** The writes of one draft, all of them or those before a failed one, keep every total. */
  lemma DraftPrefixKeepsTotals(s: Snapshot, d: RawDraftOrder, tenant: TenantId, n: nat)
    requires n <= DraftWriteCount(d)
    ensures TotalsKept(s.customers.rows, DraftPrefix(s, d, tenant, n).customers.rows)
    decreases DraftWriteCount(d) - n
  {
    if n == DraftWriteCount(d) {
      DraftCustomerBound(s, d, tenant);
      if HasCustomer(d) { NestedCustomerKeepsTotals(s, d, tenant); }
    } else {
      DraftPartlyWritten(s, d, tenant, n, 0);
      DraftPrefixKeepsTotals(s, d, tenant, DraftWriteCount(d));
    }
  }

  lemma {:induction false} DraftsKeepTotals(s: Snapshot, ds: seq<RawDraftOrder>, tenant: TenantId)
    ensures TotalsKept(s.customers.rows, ReconcileDrafts(s, ds, tenant).customers.rows)
    decreases |ds|
  {
    if ds != [] {
      var s1 := ReconcileDrafts(s, ds[..|ds| - 1], tenant);
      DraftsKeepTotals(s, ds[..|ds| - 1], tenant);
      DraftPrefixKeepsTotals(s1, ds[|ds| - 1], tenant, DraftWriteCount(ds[|ds| - 1]));
    }
  }

  /**
   * When the fetch or the writes of a draft order threw, the customer totals are not recomputed:
   * every customer that existed keeps its totals, and every customer the drafts created has zero.
   */
  lemma NoStatisticsOnFailure(s: Snapshot, tenant: TenantId, fetched: Fetch<RawDraftOrder>, fault: Option<StoreFault>)
    requires fetched.Failed? || (fetched.Fetched? && HitsRecord(fault, |fetched.records|))
    ensures TotalsKept(s.customers.rows, OrdersRun(s, tenant, fetched, fault).after.customers.rows)
  {
    if fetched.Fetched? {
      var rs := fetched.records;
      var s0 := Opened(s, OrdersSync, tenant);
      DraftsKeepTotals(s0, Written(fetched, fault), tenant);
      var s1 := ReconcileDrafts(s0, Written(fetched, fault), tenant);
      var d := rs[fault.value.at];
      DraftPrefixKeepsTotals(s1, d, tenant, ThrowPoint(d, fault.value.step));
    }
  }

  /** The sum over a set of orders grows by an order's price when that order joins it. */
  lemma SpentOverAdd(orders: map<Key, Order>, ks: set<Key>, x: Key)
    requires ks <= orders.Keys && x in orders && x !in ks
    ensures SpentOver(orders, ks + {x}) == SpentOver(orders, ks) + orders[x].totalPrice
  {
    SpentOverRemove(orders, ks + {x}, x);
    assert ks + {x} - {x} == ks;
  }

  /** A customer no order of the tenant names gets zero totals. */
  lemma NoOrdersNoTotals(c: Customer, orders: map<Key, Order>, tenant: TenantId)
    requires forall k :: k in orders && orders[k].tenantId == tenant ==> orders[k].customerShopifyId != Some(c.shopifyCustomerId)
    ensures Refreshed(c, orders, tenant).totalSpent == 0 && Refreshed(c, orders, tenant).ordersCount == 0
  {
    assert OrdersOf(orders, tenant, c.shopifyCustomerId) == {};
  }

  // ---- The full sync ----

  /** Closing the first of four appended log rows. */
  lemma CloseFirstOfFour(logs: seq<SyncLog>, started: SyncLog, a: SyncLog, b: SyncLog, c: SyncLog, full: SyncLog)
    ensures (logs + [started] + [a] + [b] + [c])[|logs| := full] == logs + [full, a, b, c]
  {
  }

  /**
   * When no page walk hangs, `syncAll` returns the summary of the three outcomes; the summary
   * reports success exactly when some sub-sync succeeded, and the sum of the successful counts.
   */
  lemma FullRunSummary(s: Snapshot, tenant: TenantId, fc: Fetch<RawCustomer>, fd: Fetch<RawDraftOrder>,
                       fp: Fetch<RawProduct>, faults: Faults)
    requires !fc.Stalled? && !fd.Stalled? && !fp.Stalled?
    ensures var r := FullRun(s, tenant, fc, fd, fp, faults);
            var c, o, p := Outcome(fc, faults.customers), Outcome(fd, faults.orders), Outcome(fp, faults.products);
            && r.summary == Some(Summarize(c, o, p))
            && (r.summary.value.success <==> c.Synced? || o.Synced? || p.Synced?)
            && r.summary.value.total == Reported(c) + Reported(o) + Reported(p)
  {
    var s0 := Opened(s, FullSync, tenant);
    var cr := CustomersRun(s0, tenant, fc, faults.customers);
    var or := OrdersRun(cr.after, tenant, fd, faults.orders);
    CustomersRunFrame(s0, tenant, fc, faults.customers);
    OrdersRunLog(cr.after, tenant, fd, faults.orders);
    ProductsRunFrame(or.after, tenant, fp, faults.products);
  }

  /**
   * When no page walk hangs, `syncAll` leaves four new log rows: its own, closed from the
   * summary, then those of customers, orders and products. Its own row is `failed` exactly when
   * all three sub-syncs threw, and records the sum of the successful counts.
   */
  lemma FullRunLogs(s: Snapshot, tenant: TenantId, fc: Fetch<RawCustomer>, fd: Fetch<RawDraftOrder>,
                    fp: Fetch<RawProduct>, faults: Faults)
    requires !fc.Stalled? && !fd.Stalled? && !fp.Stalled?
    ensures var c, o, p := Outcome(fc, faults.customers), Outcome(fd, faults.orders), Outcome(fp, faults.products);
            var full := FullLog(Summarize(c, o, p), tenant);
            && FullRun(s, tenant, fc, fd, fp, faults).after.syncLogs == s.syncLogs + [
                 full,
                 ClosedLog(CustomersSync, tenant, c, |Written(fc, faults.customers)|),
                 ClosedLog(OrdersSync, tenant, o, |Written(fd, faults.orders)|),
                 ClosedLog(ProductsSync, tenant, p, |Written(fp, faults.products)|)]
            && (full.status == SyncStatus.Failed <==> c.Threw? && o.Threw? && p.Threw?)
            && full.recordsProcessed == Reported(c) + Reported(o) + Reported(p)
  {
    var s0 := Opened(s, FullSync, tenant);
    var cr := CustomersRun(s0, tenant, fc, faults.customers);
    var or := OrdersRun(cr.after, tenant, fd, faults.orders);
    var pr := ProductsRun(or.after, tenant, fp, faults.products);
    CustomersRunFrame(s0, tenant, fc, faults.customers);
    OrdersRunLog(cr.after, tenant, fd, faults.orders);
    ProductsRunFrame(or.after, tenant, fp, faults.products);
    var c, o, p := cr.outcome, or.outcome, pr.outcome;
    var full := FullLog(Summarize(c, o, p), tenant);
    CloseFirstOfFour(s.syncLogs, StartedLog(FullSync, tenant), ClosedLog(CustomersSync, tenant, c, |Written(fc, faults.customers)|),
                     ClosedLog(OrdersSync, tenant, o, |Written(fd, faults.orders)|),
                     ClosedLog(ProductsSync, tenant, p, |Written(fp, faults.products)|), full);
  }

  /** A page walk that never ends hangs `syncAll`: no summary, and its own log row stays `started`. */
  lemma FullRunHangs(s: Snapshot, tenant: TenantId, fc: Fetch<RawCustomer>, fd: Fetch<RawDraftOrder>,
                     fp: Fetch<RawProduct>, faults: Faults)
    requires fc.Stalled? || fd.Stalled? || fp.Stalled?
    ensures var r := FullRun(s, tenant, fc, fd, fp, faults);
            r.summary.None? && r.after.syncLogs[|s.syncLogs|] == StartedLog(FullSync, tenant)
  {
    var s0 := Opened(s, FullSync, tenant);
    var cr := CustomersRun(s0, tenant, fc, faults.customers);
    assert cr.after.syncLogs[|s.syncLogs|] == StartedLog(FullSync, tenant);
    if !fc.Stalled? {
      var or := OrdersRun(cr.after, tenant, fd, faults.orders);
      assert or.after.syncLogs[|s.syncLogs|] == StartedLog(FullSync, tenant);
      if !fd.Stalled? {
        var pr := ProductsRun(or.after, tenant, fp, faults.products);
        assert pr.after.syncLogs[|s.syncLogs|] == StartedLog(FullSync, tenant);
      }
    }
  }

  /**
   * The sub-syncs are independent: whatever the customers and orders runs did, a products run
   * that fetched and wrote every record counts in the summary, so the full sync succeeds.
   */
  lemma ProductsCountDespiteFailures(s: Snapshot, tenant: TenantId, fc: Fetch<RawCustomer>, fd: Fetch<RawDraftOrder>,
                                     rs: seq<RawProduct>, faults: Faults)
    requires !fc.Stalled? && !fd.Stalled? && faults.products.None?
    ensures var r := FullRun(s, tenant, fc, fd, Fetched(rs), faults);
            r.summary.Some? && r.summary.value.success && r.summary.value.products == |rs|
  {
  }
}
