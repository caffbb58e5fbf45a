/**
 * The pull synchronisation of one tenant: customers, draft orders (with their nested customer
 * and line items) and products are fetched page by page and upserted under their composite key;
 * every run opens a sync-log row and closes it; after the orders, every customer's totals are
 * recomputed from the orders table; a full sync runs the three and summarises them.
 *
 * Each run is specified by a function from the store's tables before to the tables after
 * (`CustomersRun`, `OrdersRun`, `ProductsRun`, `FullRun`); the methods of `SyncService` are
 * the step-by-step code and are proved to produce exactly those tables.
 *
 * A store failure is an optional `StoreFault`: it names the write that throws, either one of
 * the writes of a fetched record or a write after the last record (the statistics pass of
 * `syncOrders`, the `completed` log write).
 */
module Sync {
  import opened Wrappers
  import opened Text
  import opened Records
  import opened Upsert
  import opened Shopify
  import opened Database

  // ---- Record mappings ----

  function RawCustomerKey(c: RawCustomer, tenant: TenantId): Key {
    NaturalKey(c.id, tenant)
  }

  /** The `create` branch of the customer upsert. */
  function NewCustomer(c: RawCustomer, tenant: TenantId, id: RowId): (row: Customer)
    ensures CustomerKey(row) == NaturalKey(c.id, tenant) && row.id == id
    ensures c.ordersCount.None? ==> row.ordersCount == 0
    ensures c.totalSpent.None? ==> row.totalSpent == 0
    ensures row.acceptsMarketing <==> c.acceptsMarketing == Some(true)
    ensures c.email.None? ==> row.email.None?
    ensures row.email.Some? ==> row.email == c.email && row.email.value != ""
  {
    Customer(id, NatToString(c.id), tenant, OrNull(c.email), OrNull(c.firstName), OrNull(c.lastName),
             OrNull(c.phone), NumberOr(c.ordersCount, 0), NumberOr(c.totalSpent, 0), OrNull(c.currency),
             OrNull(c.tags), c.acceptsMarketing == Some(true), OrNull(c.createdAt), OrNull(c.updatedAt))
  }

  /** The `update` branch of the customer upsert: everything but the key, the row id and `createdAtShopify`. */
  function UpdatedCustomer(row: Customer, c: RawCustomer): (r: Customer)
    ensures r.id == row.id && CustomerKey(r) == CustomerKey(row) && r.createdAtShopify == row.createdAtShopify
    ensures c.ordersCount.None? ==> r.ordersCount == 0
    ensures c.totalSpent.None? ==> r.totalSpent == 0
    ensures r.acceptsMarketing <==> c.acceptsMarketing == Some(true)
  {
    row.(email := OrNull(c.email), firstName := OrNull(c.firstName), lastName := OrNull(c.lastName),
         phone := OrNull(c.phone), ordersCount := NumberOr(c.ordersCount, 0),
         totalSpent := NumberOr(c.totalSpent, 0), currency := OrNull(c.currency), tags := OrNull(c.tags),
         acceptsMarketing := c.acceptsMarketing == Some(true), updatedAtShopify := OrNull(c.updatedAt))
  }

  /** The `create` branch of the customer upsert nested in a draft order: the totals take the table defaults. */
  function NewNestedCustomer(c: RawCustomer, tenant: TenantId, id: RowId): (row: Customer)
    ensures CustomerKey(row) == NaturalKey(c.id, tenant) && row.id == id
    ensures row.ordersCount == 0 && row.totalSpent == 0 && !row.acceptsMarketing
  {
    Customer(id, NatToString(c.id), tenant, OrNull(c.email), OrNull(c.firstName), OrNull(c.lastName),
             OrNull(c.phone), 0, 0, OrNull(c.currency), OrNull(c.tags), false,
             OrNull(c.createdAt), OrNull(c.updatedAt))
  }

  /** The nested `update` branch: contact fields only; the totals and the marketing flag are never touched. */
  function UpdatedNestedCustomer(row: Customer, c: RawCustomer): (r: Customer)
    ensures r.id == row.id && CustomerKey(r) == CustomerKey(row) && r.createdAtShopify == row.createdAtShopify
    ensures r.ordersCount == row.ordersCount && r.totalSpent == row.totalSpent
    ensures r.acceptsMarketing == row.acceptsMarketing
  {
    row.(email := OrNull(c.email), firstName := OrNull(c.firstName), lastName := OrNull(c.lastName),
         phone := OrNull(c.phone), tags := OrNull(c.tags), currency := OrNull(c.currency),
         updatedAtShopify := OrNull(c.updatedAt))
  }

  /** A draft order with the customer references the sync bound to it. */
  datatype BoundDraft = BoundDraft(draft: RawDraftOrder, customerShopifyId: Option<string>, customerId: Option<RowId>)

  function DraftOrderKey(b: BoundDraft, tenant: TenantId): Key {
    DraftKey(b.draft.id, tenant)
  }

  /** The columns every order synced from a draft carries, whether created or updated. */
  predicate DraftShaped(o: Order) {
    o.financialStatus == Some("draft") && o.fulfillmentStatus.None? && o.isDraft && o.totalDiscounts == 0
  }

  function NewDraftOrder(b: BoundDraft, tenant: TenantId, id: RowId): (o: Order)
    ensures OrderKey(o) == DraftKey(b.draft.id, tenant) && o.id == id
    ensures DraftShaped(o)
    ensures o.customerShopifyId == b.customerShopifyId && o.customerId == b.customerId
    ensures o.orderNumber == b.draft.name && o.draftStatus == b.draft.status && o.processedAt.None?
  {
    var d := b.draft;
    Order(id, "draft_" + NatToString(d.id), tenant, d.name, OrNull(d.email), Some("draft"), None,
          NumberOr(d.totalPrice, 0), NumberOr(d.subtotalPrice, 0), NumberOr(d.totalTax, 0), 0,
          d.currency, b.customerShopifyId, b.customerId, true, d.status,
          OrNull(d.createdAt), OrNull(d.updatedAt), None)
  }

  function UpdatedDraftOrder(o: Order, b: BoundDraft): (r: Order)
    ensures r.id == o.id && OrderKey(r) == OrderKey(o)
    ensures r.createdAtShopify == o.createdAtShopify && r.processedAt == o.processedAt
    ensures DraftShaped(r)
    ensures r.customerShopifyId == b.customerShopifyId && r.customerId == b.customerId
    ensures r.orderNumber == b.draft.name && r.draftStatus == b.draft.status
  {
    var d := b.draft;
    o.(orderNumber := d.name, email := OrNull(d.email), financialStatus := Some("draft"),
       fulfillmentStatus := None, totalPrice := NumberOr(d.totalPrice, 0),
       subtotalPrice := NumberOr(d.subtotalPrice, 0), totalTax := NumberOr(d.totalTax, 0),
       totalDiscounts := 0, currency := d.currency, customerShopifyId := b.customerShopifyId,
       customerId := b.customerId, isDraft := true, draftStatus := d.status,
       updatedAtShopify := OrNull(d.updatedAt))
  }

  function RawProductKey(p: RawProduct, tenant: TenantId): Key {
    NaturalKey(p.id, tenant)
  }

  function FirstVariant(p: RawProduct): (v: Option<RawVariant>)
    ensures v.Some? <==> p.variants.Some? && |p.variants.value| > 0
  {
    if p.variants.Some? && |p.variants.value| > 0 then Some(p.variants.value[0]) else None
  }

  /** `firstImage?.src`: `None` when there is no image (undefined), else the first image's `src`. */
  function FirstImageSrc(p: RawProduct): (src: Option<Option<string>>)
    ensures src.Some? <==> p.images.Some? && |p.images.value| > 0
  {
    if p.images.Some? && |p.images.value| > 0 then Some(p.images.value[0].src) else None
  }

  /** `firstVariant?.price ? parseFloat(firstVariant.price) : null`, likewise for the compare-at price. */
  function VariantPrice(v: Option<RawVariant>): (r: Option<Cents>)
    ensures v.None? ==> r.None?
  {
    if v.Some? then v.value.price else None
  }

  function VariantCompareAtPrice(v: Option<RawVariant>): (r: Option<Cents>)
    ensures v.None? ==> r.None?
  {
    if v.Some? then v.value.compareAtPrice else None
  }

  function VariantInventory(v: Option<RawVariant>): (r: int)
    ensures r == 0 || (v.Some? && v.value.inventoryQuantity == Some(r))
    ensures v.Some? && v.value.inventoryQuantity.Some? && v.value.inventoryQuantity.value != 0 ==> r == v.value.inventoryQuantity.value
  {
    if v.Some? then NumberOr(v.value.inventoryQuantity, 0) else 0
  }

  function NewProduct(p: RawProduct, tenant: TenantId, id: RowId): (row: Product)
    ensures ProductKey(row) == NaturalKey(p.id, tenant) && row.id == id
    ensures FirstVariant(p).None? ==> row.price.None? && row.compareAtPrice.None? && row.inventoryQuantity == 0
    ensures FirstImageSrc(p).None? ==> row.imageUrl.None?
    ensures row.title == p.title && row.status == p.status
  {
    var v := FirstVariant(p);
    Product(id, NatToString(p.id), tenant, p.title, p.bodyHtml, p.vendor, p.productType, p.tags, p.status,
            p.handle, FirstImageSrc(p).GetOr(None), VariantPrice(v), VariantCompareAtPrice(v),
            VariantInventory(v), OrNull(p.createdAt), OrNull(p.updatedAt))
  }

  /** The `update` branch: an undefined image URL leaves the stored one in place. */
  function UpdatedProduct(row: Product, p: RawProduct): (r: Product)
    ensures r.id == row.id && ProductKey(r) == ProductKey(row) && r.createdAtShopify == row.createdAtShopify
    ensures FirstImageSrc(p).None? ==> r.imageUrl == row.imageUrl
    ensures FirstImageSrc(p).Some? ==> r.imageUrl == FirstImageSrc(p).value
    ensures FirstVariant(p).None? ==> r.price.None? && r.compareAtPrice.None? && r.inventoryQuantity == 0
  {
    var v := FirstVariant(p);
    var src := FirstImageSrc(p);
    row.(title := p.title, description := p.bodyHtml, vendor := p.vendor, productType := p.productType,
         tags := p.tags, status := p.status, handle := p.handle,
         imageUrl := if src.Some? then src.value else row.imageUrl,
         price := VariantPrice(v), compareAtPrice := VariantCompareAtPrice(v),
         inventoryQuantity := VariantInventory(v), updatedAtShopify := OrNull(p.updatedAt))
  }

  // ---- One draft order ----

  predicate HasCustomer(d: RawDraftOrder) {
    d.customer.Some? && d.customer.value.id != 0
  }

  predicate HasItems(d: RawDraftOrder) {
    d.lineItems.Some? && |d.lineItems.value| > 0
  }

  /**
   * The store writes one draft order makes: its customer's upsert (when it has one), its own
   * upsert, then, when it has line items, the `deleteMany` and one `create` per item.
   */
  function DraftWriteCount(d: RawDraftOrder): (n: nat)
    ensures n >= 1
  {
    (if HasCustomer(d) then 1 else 0) + 1 + (if HasItems(d) then 1 + |d.lineItems.value| else 0)
  }

  /**
   * The tables after the first `n` writes of draft order `d`: upsert its customer when it has an
   * id, upsert the order under its draft key bound to that customer, delete the order's items
   * and create one per line item, in that order.
   */
  function DraftPrefix(s: Snapshot, d: RawDraftOrder, tenant: TenantId, n: nat): (r: Snapshot)
    requires n <= DraftWriteCount(d)
    ensures r.products == s.products && r.syncLogs == s.syncLogs
    ensures n > (if HasCustomer(d) then 1 else 0) ==> DraftKey(d.id, tenant) in r.orders.rows
    ensures n <= (if HasCustomer(d) then 1 else 0) ==> r.orders == s.orders && r.orderItems == s.orderItems
    ensures n == 0 ==> r == s
  {
    var c := if HasCustomer(d) then 1 else 0;
    var s1 := if n >= 1 then DraftCustomerWrite(s, d, tenant) else s;
    if n <= c then s1
    else
      var s2 := DraftOrderWrite(s1, d, tenant);
      var m := n - c - 1;
      if m == 0 then s2
      else s2.(orderItems := PartlyReplaced(s2.orderItems, s2.orders.rows[DraftKey(d.id, tenant)].id, d.lineItems.value, m))
  }

  /** The first write of a draft with a customer id: the upsert of that customer (none otherwise). */
  function DraftCustomerWrite(s: Snapshot, d: RawDraftOrder, tenant: TenantId): (r: Snapshot)
    ensures r.orders == s.orders && r.orderItems == s.orderItems && r.products == s.products && r.syncLogs == s.syncLogs
    ensures HasCustomer(d) ==> NaturalKey(d.customer.value.id, tenant) in r.customers.rows
    ensures !HasCustomer(d) ==> r == s
  {
    if HasCustomer(d) then
      s.(customers := Step(s.customers, d.customer.value, tenant, RawCustomerKey, NewNestedCustomer, UpdatedNestedCustomer))
    else s
  }

  /** The draft bound to its customer, by external id and by the row id the upsert left. */
  function DraftBinding(customers: Table<Customer>, d: RawDraftOrder, tenant: TenantId): (b: BoundDraft)
    requires HasCustomer(d) ==> NaturalKey(d.customer.value.id, tenant) in customers.rows
    ensures b.draft == d
    ensures HasCustomer(d) ==> b.customerShopifyId == Some(NatToString(d.customer.value.id))
    ensures HasCustomer(d) ==> b.customerId == Some(customers.rows[NaturalKey(d.customer.value.id, tenant)].id)
    ensures !HasCustomer(d) ==> b.customerShopifyId.None? && b.customerId.None?
  {
    if HasCustomer(d) then BoundDraft(d, Some(NatToString(d.customer.value.id)), Some(customers.rows[NaturalKey(d.customer.value.id, tenant)].id))
    else BoundDraft(d, None, None)
  }

  /** The order upsert of a draft, after its customer's. */
  function DraftOrderWrite(s: Snapshot, d: RawDraftOrder, tenant: TenantId): (r: Snapshot)
    requires HasCustomer(d) ==> NaturalKey(d.customer.value.id, tenant) in s.customers.rows
    ensures r.customers == s.customers && r.orderItems == s.orderItems && r.products == s.products && r.syncLogs == s.syncLogs
    ensures DraftKey(d.id, tenant) in r.orders.rows
  {
    s.(orders := Step(s.orders, DraftBinding(s.customers, d, tenant), tenant, DraftOrderKey, NewDraftOrder, UpdatedDraftOrder))
  }

  /** One draft order, all of its writes. */
  function ReconcileDraft(s: Snapshot, d: RawDraftOrder, tenant: TenantId): (r: Snapshot)
    ensures r.products == s.products && r.syncLogs == s.syncLogs
    ensures DraftKey(d.id, tenant) in r.orders.rows
  {
    DraftPrefix(s, d, tenant, DraftWriteCount(d))
  }

  /** The draft orders of `ds`, one after the other. */
  function ReconcileDrafts(s: Snapshot, ds: seq<RawDraftOrder>, tenant: TenantId): (r: Snapshot)
    ensures r.products == s.products && r.syncLogs == s.syncLogs
    decreases |ds|
  {
    if ds == [] then s
    else ReconcileDraft(ReconcileDrafts(s, ds[..|ds| - 1], tenant), ds[|ds| - 1], tenant)
  }

  lemma ReconcileDraftsNext(s: Snapshot, ds: seq<RawDraftOrder>, i: nat, tenant: TenantId)
    requires i < |ds|
    ensures ReconcileDrafts(s, ds[..i + 1], tenant) == ReconcileDraft(ReconcileDrafts(s, ds[..i], tenant), ds[i], tenant)
  {
    assert ds[..i + 1][..i] == ds[..i];
  }

  // ---- Customer statistics ----

  /** The keys of the tenant's orders that reference the customer with external id `customerShopifyId`. */
  ghost function OrdersOf(orders: map<Key, Order>, tenant: TenantId, customerShopifyId: string): set<Key> {
    set k | k in orders && orders[k].tenantId == tenant && orders[k].customerShopifyId == Some(customerShopifyId)
  }

  /** The sum of `totalPrice` over the orders under `ks` (0 for none). */
  ghost function SpentOver(orders: map<Key, Order>, ks: set<Key>): int
    requires ks <= orders.Keys
  {
    if ks == {} then 0
    else
      var k :| k in ks;
      orders[k].totalPrice + SpentOver(orders, ks - {k})
  }

  lemma SpentOverRemove(orders: map<Key, Order>, ks: set<Key>, x: Key)
    requires x in ks && ks <= orders.Keys
    ensures SpentOver(orders, ks) == orders[x].totalPrice + SpentOver(orders, ks - {x})
    decreases ks
  {
    var y :| y in ks && SpentOver(orders, ks) == orders[y].totalPrice + SpentOver(orders, ks - {y});
    if y != x {
      SpentOverRemove(orders, ks - {y}, x);
      SpentOverRemove(orders, ks - {x}, y);
      assert ks - {y} - {x} == ks - {x} - {y};
    }
  }

  /** A customer row with its totals recomputed from the orders table. */
  ghost function Refreshed(c: Customer, orders: map<Key, Order>, tenant: TenantId): Customer {
    var ks := OrdersOf(orders, tenant, c.shopifyCustomerId);
    c.(totalSpent := SpentOver(orders, ks), ordersCount := |ks|)
  }

  /** Every customer row of the tenant refreshed; other tenants' rows as they were. */
  ghost function WithStatistics(customers: map<Key, Customer>, orders: map<Key, Order>, tenant: TenantId): map<Key, Customer> {
    Refreshing(customers, orders, tenant, {})
  }

  /** The customer rows while the statistics pass still has `todo` left: the tenant's other rows are refreshed. */
  ghost function Refreshing(customers: map<Key, Customer>, orders: map<Key, Order>, tenant: TenantId, todo: set<Key>): map<Key, Customer> {
    map k | k in customers :: if customers[k].tenantId == tenant && k !in todo then Refreshed(customers[k], orders, tenant) else customers[k]
  }

  /** Refreshing customer `k`, which the pass will not skip, takes it off the rows still to do. */
  lemma RefreshingStep(customers: map<Key, Customer>, orders: map<Key, Order>, tenant: TenantId, todo: set<Key>, skipped: set<Key>, k: Key)
    requires k in todo && k !in skipped && k in customers
    requires customers[k].tenantId == tenant
    ensures Refreshing(customers, orders, tenant, (todo - {k}) + skipped)
            == Refreshing(customers, orders, tenant, todo + skipped)[k := Refreshed(customers[k], orders, tenant)]
  {
    assert (todo + skipped) - {k} == (todo - {k}) + skipped;
  }

  /** `order.aggregate({ _sum: { totalPrice }, _count: { id } })` over one customer's orders of the tenant. */
  method Aggregate(orders: map<Key, Order>, tenant: TenantId, customerShopifyId: string) returns (sum: int, count: nat)
    ensures sum == SpentOver(orders, OrdersOf(orders, tenant, customerShopifyId))
    ensures count == |OrdersOf(orders, tenant, customerShopifyId)|
  {
    var todo := set k | k in orders && orders[k].tenantId == tenant && orders[k].customerShopifyId == Some(customerShopifyId);
    ghost var all := todo;
    sum, count := 0, 0;
    while todo != {}
      invariant todo <= all <= orders.Keys
      invariant sum + SpentOver(orders, todo) == SpentOver(orders, all)
      invariant count + |todo| == |all|
      decreases |todo|
    {
      var k :| k in todo;
      SpentOverRemove(orders, todo, k);
      sum, count := sum + orders[k].totalPrice, count + 1;
      todo := todo - {k};
    }
  }

  // ---- Runs and their sync-log rows ----

  /**
   * Where the store throws during a sub-sync.
   * - `WriteFault(at, step, error)`: on write `step` (counted from 0) of record `at`; a step
   *   past the record's last write is read as that last write. A customer or a product is one
   *   upsert; a draft order makes `DraftWriteCount` writes.
   * - `LateFault(refreshed, error)`: after every record was written: in the statistics pass of
   *   `syncOrders`, once the customers in `refreshed` were updated (the store lists them first),
   *   or, when `refreshed` holds every customer, at the `completed` log write.
   */
  datatype StoreFault =
    | WriteFault(at: nat, step: nat, error: Error)
    | LateFault(refreshed: set<Key>, error: Error)

  /** The fault hits one of the first `n` records. */
  predicate HitsRecord(fault: Option<StoreFault>, n: nat) {
    fault.Some? && fault.value.WriteFault? && fault.value.at < n
  }

  /** The fault hits a run over `n` records at all. */
  predicate Fires(fault: Option<StoreFault>, n: nat) {
    HitsRecord(fault, n) || (fault.Some? && fault.value.LateFault?)
  }

  /** How a sub-sync ended: it returned a count, it threw, or the page walk never ended. */
  datatype SubSync = Synced(count: nat) | Threw(error: Error) | Hung

  /** The fetched records written before the store failed (none when the fetch did not succeed). */
  function Written<R>(fetched: Fetch<R>, fault: Option<StoreFault>): (done: seq<R>)
    ensures fetched.Fetched? ==> done <= fetched.records
    ensures !fetched.Fetched? ==> done == []
    ensures fetched.Fetched? && HitsRecord(fault, |fetched.records|) ==> |done| == fault.value.at
    ensures fetched.Fetched? && !HitsRecord(fault, |fetched.records|) ==> done == fetched.records
  {
    match fetched
    case Fetched(rs) => if HitsRecord(fault, |rs|) then rs[..fault.value.at] else rs
    case _ => []
  }

  function Outcome<R>(fetched: Fetch<R>, fault: Option<StoreFault>): SubSync {
    match fetched
    case Stalled => Hung
    case Failed(e) => Threw(e)
    case Fetched(rs) => if Fires(fault, |rs|) then Threw(fault.value.error) else Synced(|rs|)
  }

  function StartedLog(kind: SyncType, tenant: TenantId): SyncLog {
    SyncLog(kind, Started, 0, None, tenant)
  }

  /** The log row as the run leaves it; a hung run never reaches `updateSyncLog`. */
  function ClosedLog(kind: SyncType, tenant: TenantId, outcome: SubSync, processed: nat): SyncLog {
    match outcome
    case Synced(_) => SyncLog(kind, Completed, processed, None, tenant)
    case Threw(e) => SyncLog(kind, SyncStatus.Failed, processed, Some(e.message), tenant)
    case Hung => StartedLog(kind, tenant)
  }

  function Opened(s: Snapshot, kind: SyncType, tenant: TenantId): Snapshot {
    s.(syncLogs := s.syncLogs + [StartedLog(kind, tenant)])
  }

  function Closed(s: Snapshot, at: nat, log: SyncLog): Snapshot
    requires at < |s.syncLogs|
  {
    s.(syncLogs := s.syncLogs[at := log])
  }

  datatype Run = Run(after: Snapshot, outcome: SubSync)

  /** Updating the row just appended is appending the updated row. */
  lemma CloseLast(logs: seq<SyncLog>, started: SyncLog, closed: SyncLog)
    ensures (logs + [started])[|logs| := closed] == logs + [closed]
  {
  }

  /** `syncCustomers`. */
  function CustomersRun(s: Snapshot, tenant: TenantId, fetched: Fetch<RawCustomer>, fault: Option<StoreFault>): (r: Run)
  {
    var done := Written(fetched, fault);
    var outcome := Outcome(fetched, fault);
    Run(s.(customers := UpsertAll(s.customers, done, tenant, RawCustomerKey, NewCustomer, UpdatedCustomer),
          syncLogs := s.syncLogs + [ClosedLog(CustomersSync, tenant, outcome, |done|)]), outcome)
  }

  /** The write of draft `d` at which a fault at `step` throws. */
  function ThrowPoint(d: RawDraftOrder, step: nat): (n: nat)
    ensures n < DraftWriteCount(d)
    ensures step < DraftWriteCount(d) ==> n == step
  {
    if step < DraftWriteCount(d) then step else DraftWriteCount(d) - 1
  }

  /**
   * The tables after the draft-order loop of `syncOrders`: the drafts before the fault with all
   * of their writes, then the writes of the interrupted draft before the one that throws.
   */
  function DraftLoop(s: Snapshot, rs: seq<RawDraftOrder>, tenant: TenantId, fault: Option<StoreFault>): (r: Snapshot)
    ensures r.products == s.products && r.syncLogs == s.syncLogs
  {
    var s1 := ReconcileDrafts(s, Written(Fetched(rs), fault), tenant);
    if HitsRecord(fault, |rs|) then
      var d := rs[fault.value.at];
      DraftPrefix(s1, d, tenant, ThrowPoint(d, fault.value.step))
    else s1
  }

  /** The customers the statistics pass has not reached when a late fault throws (none otherwise). */
  function Unreached(customers: map<Key, Customer>, fault: Option<StoreFault>): set<Key> {
    if fault.Some? && fault.value.LateFault? then customers.Keys - fault.value.refreshed else {}
  }

  /**
   * `syncOrders`: the draft orders until the store fails; once all were written, the customer
   * statistics, interrupted by a late fault; then the closing log row.
   */
  ghost function OrdersRun(s: Snapshot, tenant: TenantId, fetched: Fetch<RawDraftOrder>, fault: Option<StoreFault>): (r: Run)
    ensures r.outcome == Outcome(fetched, fault)
    ensures r.after.syncLogs == s.syncLogs + [ClosedLog(OrdersSync, tenant, r.outcome, |Written(fetched, fault)|)]
    ensures r.after.products == s.products
  {
    var done := Written(fetched, fault);
    var outcome := Outcome(fetched, fault);
    var s0 := Opened(s, OrdersSync, tenant);
    var s2 :=
      match fetched
      case Fetched(rs) =>
        var s1 := DraftLoop(s0, rs, tenant, fault);
        if HitsRecord(fault, |rs|) then s1
        else s1.(customers := Table(Refreshing(s1.customers.rows, s1.orders.rows, tenant, Unreached(s1.customers.rows, fault)), s1.customers.nextId))
      case _ => s0;
    Run(Closed(s2, |s.syncLogs|, ClosedLog(OrdersSync, tenant, outcome, |done|)), outcome)
  }

  /** `syncProducts`. */
  function ProductsRun(s: Snapshot, tenant: TenantId, fetched: Fetch<RawProduct>, fault: Option<StoreFault>): (r: Run)
  {
    var done := Written(fetched, fault);
    var outcome := Outcome(fetched, fault);
    Run(s.(products := UpsertAll(s.products, done, tenant, RawProductKey, NewProduct, UpdatedProduct),
          syncLogs := s.syncLogs + [ClosedLog(ProductsSync, tenant, outcome, |done|)]), outcome)
  }

  // ---- The full sync ----

  /** `getReadableError`: a 403 names the missing scope, a 401 the token, otherwise the message. */
  function ReadableError(e: Error, scope: string): (msg: string)
    ensures |msg| > 0
    ensures e.status == Some(403) ==> msg == "Access denied - enable '" + scope + "' scope in your Shopify app"
    ensures e.status == Some(401) ==> msg == "Invalid API access token"
    ensures e.status != Some(403) && e.status != Some(401) ==> msg == if e.message != "" then e.message else "Unknown error"
  {
    if e.status == Some(403) then "Access denied - enable '" + scope + "' scope in your Shopify app"
    else if e.status == Some(401) then "Invalid API access token"
    else if e.message != "" then e.message
    else "Unknown error"
  }

  datatype Summary = Summary(
    success: bool, partial: bool, customers: nat, orders: nat, products: nat, total: nat,
    errors: Option<seq<string>>)

  /** The count a sub-sync reports: its records when it succeeded, 0 when it threw. */
  function Reported(outcome: SubSync): nat {
    if outcome.Synced? then outcome.count else 0
  }

  /** The error line a sub-sync contributes, if it threw. */
  function ErrorLine(heading: string, outcome: SubSync, scope: string): seq<string> {
    if outcome.Threw? then [heading + ": " + ReadableError(outcome.error, scope)] else []
  }

  function Summarize(c: SubSync, o: SubSync, p: SubSync): (r: Summary)
    requires !c.Hung? && !o.Hung? && !p.Hung?
    ensures r.success <==> c.Synced? || o.Synced? || p.Synced?
    ensures r.partial <==> r.success && r.errors.Some?
    ensures r.errors.Some? <==> c.Threw? || o.Threw? || p.Threw?
    ensures r.customers == Reported(c) && r.orders == Reported(o) && r.products == Reported(p)
    ensures r.total == r.customers + r.orders + r.products
    ensures r.errors.Some? ==>
      r.errors.value == ErrorLine("Customers", c, "read_customers") + ErrorLine("Orders", o, "read_orders")
                        + ErrorLine("Products", p, "read_products")
  {
    var errors := ErrorLine("Customers", c, "read_customers") + ErrorLine("Orders", o, "read_orders")
                  + ErrorLine("Products", p, "read_products");
    var success := c.Synced? || o.Synced? || p.Synced?;
    Summary(success, success && |errors| > 0, Reported(c), Reported(o), Reported(p),
            Reported(c) + Reported(o) + Reported(p), if |errors| > 0 then Some(errors) else None)
  }

  /** The full-sync log row: a partial result is logged as completed; errors joined by "; ". */
  function FullLog(sum: Summary, tenant: TenantId): (log: SyncLog)
    ensures log.status == SyncStatus.Failed <==> !sum.success
    ensures log.recordsProcessed == sum.total
    ensures log.errorMessage.Some? <==> sum.errors.Some?
  {
    SyncLog(FullSync, if sum.success then Completed else SyncStatus.Failed, sum.total,
            if sum.errors.Some? then Some(Join(sum.errors.value, "; ")) else None, tenant)
  }

  /** The summary `syncAll` builds from its running total and error list is `Summarize`'s. */
  lemma SummaryOfRecords(c: SubSync, o: SubSync, p: SubSync, total: nat, errors: seq<string>)
    requires !c.Hung? && !o.Hung? && !p.Hung?
    requires total == Reported(c) + Reported(o) + Reported(p)
    requires errors == ErrorLine("Customers", c, "read_customers") + ErrorLine("Orders", o, "read_orders")
                       + ErrorLine("Products", p, "read_products")
    ensures var success := c.Synced? || o.Synced? || p.Synced?;
            Summarize(c, o, p) == Summary(success, success && |errors| > 0, Reported(c), Reported(o), Reported(p),
                                          total, if |errors| > 0 then Some(errors) else None)
  {
  }

  datatype FullResult = FullResult(after: Snapshot, summary: Option<Summary>)

  /** `syncAll`: the three sub-syncs in order; a hung one leaves the full-sync log started. */
  ghost function FullRun(s: Snapshot, tenant: TenantId, fc: Fetch<RawCustomer>, fd: Fetch<RawDraftOrder>,
                         fp: Fetch<RawProduct>, faults: Faults): FullResult
  {
    var c := CustomersRun(Opened(s, FullSync, tenant), tenant, fc, faults.customers);
    if c.outcome.Hung? then FullResult(c.after, None) else
    var o := OrdersRun(c.after, tenant, fd, faults.orders);
    if o.outcome.Hung? then FullResult(o.after, None) else
    var p := ProductsRun(o.after, tenant, fp, faults.products);
    if p.outcome.Hung? then FullResult(p.after, None) else
    var sum := Summarize(c.outcome, o.outcome, p.outcome);
    FullResult(Closed(p.after, |s.syncLogs|, FullLog(sum, tenant)), Some(sum))
  }

  /** The three collections' page oracles and the page budget of each walk. */
  datatype Sources = Sources(customers: Api<RawCustomer>, draftOrders: Api<RawDraftOrder>, products: Api<RawProduct>, fuel: nat)

  datatype Faults = Faults(customers: Option<StoreFault>, orders: Option<StoreFault>, products: Option<StoreFault>)

  class SyncService {
    const tenant: Tenant
    const client: Client
    const store: Store

    constructor(tenant: Tenant, store: Store)
      ensures this.tenant == tenant && this.store == store
      ensures client == NewClient(tenant.shopifyStoreUrl, tenant.shopifyAccessToken, DefaultApiVersion)
    {
      this.tenant := tenant;
      this.store := store;
      client := NewClient(tenant.shopifyStoreUrl, tenant.shopifyAccessToken, DefaultApiVersion);
    }

    method CreateSyncLog(kind: SyncType) returns (logId: nat)
      modifies store`syncLogs
      ensures logId == |old(store.syncLogs)|
      ensures store.syncLogs == old(store.syncLogs) + [StartedLog(kind, tenant.id)]
    {
      logId := |store.syncLogs|;
      store.syncLogs := store.syncLogs + [StartedLog(kind, tenant.id)];
    }

    method UpdateSyncLog(logId: nat, status: SyncStatus, recordsProcessed: nat, errorMessage: Option<string>)
      requires logId < |store.syncLogs|
      modifies store`syncLogs
      ensures store.syncLogs == old(store.syncLogs)[logId := old(store.syncLogs)[logId].(
                status := status, recordsProcessed := recordsProcessed, errorMessage := errorMessage)]
    {
      store.syncLogs := store.syncLogs[logId := store.syncLogs[logId].(
        status := status, recordsProcessed := recordsProcessed, errorMessage := errorMessage)];
    }

    /** The `for` loop of `syncCustomers`: one upsert per record, in list order, until the store fails. */
    method UpsertCustomers(rs: seq<RawCustomer>, fault: Option<StoreFault>) returns (processed: nat)
      modifies store`customers
      ensures processed == |Written(Fetched(rs), fault)|
      ensures store.customers == UpsertAll(old(store.customers), Written(Fetched(rs), fault), tenant.id, RawCustomerKey, NewCustomer, UpdatedCustomer)
    {
      processed := 0;
      while processed < |rs|
        invariant processed <= |rs|
        invariant fault.Some? && fault.value.WriteFault? ==> processed <= fault.value.at
        invariant store.customers == UpsertAll(old(store.customers), rs[..processed], tenant.id, RawCustomerKey, NewCustomer, UpdatedCustomer)
      {
        if fault.Some? && fault.value.WriteFault? && fault.value.at == processed {
          assert Written(Fetched(rs), fault) == rs[..processed];
          return;
        }
        UpsertAllSnoc(old(store.customers), rs, processed, tenant.id, RawCustomerKey, NewCustomer, UpdatedCustomer);
        store.customers := Step(store.customers, rs[processed], tenant.id, RawCustomerKey, NewCustomer, UpdatedCustomer);
        processed := processed + 1;
      }
      assert rs[..processed] == rs;
    }

    /** The `try` block of `syncCustomers` once the list is fetched: the upserts, then the closing log. */
    method WriteCustomers(ghost s0: Snapshot, logId: nat, rs: seq<RawCustomer>, fault: Option<StoreFault>) returns (outcome: SubSync)
      requires logId == |s0.syncLogs| && store.Contents() == Opened(s0, CustomersSync, tenant.id)
      modifies store`customers, store`syncLogs
      ensures var run := CustomersRun(s0, tenant.id, Fetched(rs), fault);
              store.Contents() == run.after && outcome == run.outcome
    {
      var processed := UpsertCustomers(rs, fault);
      if Fires(fault, |rs|) {
        // the upsert of a record threw, or the `completed` log write did: the `catch` closes the row
        assert Outcome(Fetched(rs), fault) == Threw(fault.value.error);
        UpdateSyncLog(logId, SyncStatus.Failed, processed, Some(fault.value.error.message));
        CloseLast(s0.syncLogs, StartedLog(CustomersSync, tenant.id), ClosedLog(CustomersSync, tenant.id, Threw(fault.value.error), processed));
        return Threw(fault.value.error);
      }
      assert Outcome(Fetched(rs), fault) == Synced(|rs|);
      UpdateSyncLog(logId, Completed, processed, None);
      CloseLast(s0.syncLogs, StartedLog(CustomersSync, tenant.id), ClosedLog(CustomersSync, tenant.id, Synced(processed), processed));
      return Synced(processed);
    }

    method SyncCustomers(api: Api<RawCustomer>, fuel: nat, fault: Option<StoreFault>) returns (outcome: SubSync)
      modifies store`customers, store`syncLogs
      ensures var run := CustomersRun(old(store.Contents()), tenant.id, FetchFrom(api, client.UrlFor(CustomersEndpoint([])), fuel), fault);
              store.Contents() == run.after && outcome == run.outcome
    {
      var logId := CreateSyncLog(CustomersSync);
      var fetched := FetchAllPages(api, client, CustomersEndpoint([]), fuel);
      match fetched {
        case Stalled =>
          assert Written(fetched, fault) == [] && Outcome(fetched, fault) == Hung;
          return Hung;
        case Failed(e) =>
          assert Written(fetched, fault) == [] && Outcome(fetched, fault) == Threw(e);
          UpdateSyncLog(logId, SyncStatus.Failed, 0, Some(e.message));
          CloseLast(old(store.syncLogs), StartedLog(CustomersSync, tenant.id), ClosedLog(CustomersSync, tenant.id, Threw(e), 0));
          return Threw(e);
        case Fetched(rs) =>
          outcome := WriteCustomers(old(store.Contents()), logId, rs, fault);
      }
    }


    /**
     * The loop body of `syncOrders` for one draft order, write by write; with `failAt` the store
     * throws on that write of the draft and the writes after it are not made.
     */
    method SyncDraft(d: RawDraftOrder, failAt: Option<nat>)
      requires failAt.Some? ==> failAt.value < DraftWriteCount(d)
      modifies store`customers, store`orders, store`orderItems
      ensures store.Contents() == DraftPrefix(old(store.Contents()), d, tenant.id, failAt.GetOr(DraftWriteCount(d)))
    {
      var c := if HasCustomer(d) then 1 else 0;
      if failAt == Some(0) { return; }
      UpsertDraftCustomer(d);
      if failAt == Some(c) { return; }
      UpsertDraftOrder(d);
      if HasItems(d) {
        var itemFailAt: Option<nat> := None;
        if failAt.Some? {
          itemFailAt := Some(failAt.value - c - 1);
        }
        ReplaceDraftItems(d, itemFailAt);
      }
    }

    /** The customer upsert of a draft with a customer id. */
    method UpsertDraftCustomer(d: RawDraftOrder)
      modifies store`customers
      ensures store.Contents() == DraftCustomerWrite(old(store.Contents()), d, tenant.id)
    {
      if HasCustomer(d) {
        store.customers := Step(store.customers, d.customer.value, tenant.id, RawCustomerKey, NewNestedCustomer, UpdatedNestedCustomer);
      }
    }

    /** The order upsert of a draft, bound to the customer row its customer upsert left. */
    method UpsertDraftOrder(d: RawDraftOrder)
      requires HasCustomer(d) ==> NaturalKey(d.customer.value.id, tenant.id) in store.customers.rows
      modifies store`orders
      ensures store.Contents() == DraftOrderWrite(old(store.Contents()), d, tenant.id)
    {
      store.orders := Step(store.orders, DraftBinding(store.customers, d, tenant.id), tenant.id, DraftOrderKey, NewDraftOrder, UpdatedDraftOrder);
    }

    /** The `deleteMany` and the `create` per line item of a stored draft, until `failAt` throws. */
    method ReplaceDraftItems(d: RawDraftOrder, failAt: Option<nat>)
      requires HasItems(d) && DraftKey(d.id, tenant.id) in store.orders.rows
      requires failAt.Some? ==> failAt.value <= |d.lineItems.value|
      modifies store`orderItems
      ensures store.orderItems
              == PartlyReplaced(old(store.orderItems), store.orders.rows[DraftKey(d.id, tenant.id)].id, d.lineItems.value,
                                failAt.GetOr(1 + |d.lineItems.value|))
    {
      store.ReplaceItems(store.orders.rows[DraftKey(d.id, tenant.id)].id, d.lineItems.value, failAt);
    }

    /** One turn of the draft-order loop. */
    method SyncNextDraft(ghost s0: Snapshot, rs: seq<RawDraftOrder>, i: nat)
      requires i < |rs| && store.Contents() == ReconcileDrafts(s0, rs[..i], tenant.id)
      modifies store`customers, store`orders, store`orderItems
      ensures store.Contents() == ReconcileDrafts(s0, rs[..i + 1], tenant.id)
    {
      ReconcileDraftsNext(s0, rs, i, tenant.id);
      SyncDraft(rs[i], None);
    }

    /** The `for` loop of `syncOrders`: the draft orders in list order, until the store fails. */
    method SyncDrafts(rs: seq<RawDraftOrder>, fault: Option<StoreFault>) returns (processed: nat)
      modifies store`customers, store`orders, store`orderItems
      ensures processed == |Written(Fetched(rs), fault)|
      ensures store.Contents() == DraftLoop(old(store.Contents()), rs, tenant.id, fault)
    {
      ghost var s0 := store.Contents();
      processed := 0;
      while processed < |rs|
        invariant processed <= |rs|
        invariant fault.Some? && fault.value.WriteFault? ==> processed <= fault.value.at
        invariant store.Contents() == ReconcileDrafts(s0, rs[..processed], tenant.id)
      {
        if fault.Some? && fault.value.WriteFault? && fault.value.at == processed {
          assert Written(Fetched(rs), fault) == rs[..processed];
          SyncDraft(rs[processed], Some(ThrowPoint(rs[processed], fault.value.step)));
          return;
        }
        SyncNextDraft(s0, rs, processed);
        processed := processed + 1;
      }
      assert rs[..processed] == rs;
      assert Written(Fetched(rs), fault) == rs;
    }

    /** The `try` block of `syncOrders` once the list is fetched: the draft orders, the statistics, then the closing log. */
    method WriteOrders(ghost s0: Snapshot, logId: nat, rs: seq<RawDraftOrder>, fault: Option<StoreFault>) returns (outcome: SubSync)
      requires logId == |s0.syncLogs| && store.Contents() == Opened(s0, OrdersSync, tenant.id)
      modifies store`customers, store`orders, store`orderItems, store`syncLogs
      ensures var run := OrdersRun(s0, tenant.id, Fetched(rs), fault);
              store.Contents() == run.after && outcome == run.outcome
    {
      var processed := SyncDrafts(rs, fault);
      if HitsRecord(fault, |rs|) {
        assert Outcome(Fetched(rs), fault) == Threw(fault.value.error);
        UpdateSyncLog(logId, SyncStatus.Failed, processed, Some(fault.value.error.message));
        CloseLast(s0.syncLogs, StartedLog(OrdersSync, tenant.id), ClosedLog(OrdersSync, tenant.id, Threw(fault.value.error), processed));
        return Threw(fault.value.error);
      }
      UpdateCustomerStatistics(Unreached(store.customers.rows, fault));
      if Fires(fault, |rs|) {
        // the statistics pass threw, or the `completed` log write did: the `catch` closes the row
        assert Outcome(Fetched(rs), fault) == Threw(fault.value.error);
        UpdateSyncLog(logId, SyncStatus.Failed, processed, Some(fault.value.error.message));
        CloseLast(s0.syncLogs, StartedLog(OrdersSync, tenant.id), ClosedLog(OrdersSync, tenant.id, Threw(fault.value.error), processed));
        return Threw(fault.value.error);
      }
      assert Outcome(Fetched(rs), fault) == Synced(|rs|);
      UpdateSyncLog(logId, Completed, processed, None);
      CloseLast(s0.syncLogs, StartedLog(OrdersSync, tenant.id), ClosedLog(OrdersSync, tenant.id, Synced(processed), processed));
      return Synced(processed);
    }

    method SyncOrders(api: Api<RawDraftOrder>, fuel: nat, fault: Option<StoreFault>) returns (outcome: SubSync)
      modifies store`customers, store`orders, store`orderItems, store`syncLogs
      ensures var run := OrdersRun(old(store.Contents()), tenant.id, FetchFrom(api, client.UrlFor(DraftOrdersEndpoint([])), fuel), fault);
              store.Contents() == run.after && outcome == run.outcome
    {
      var logId := CreateSyncLog(OrdersSync);
      var fetched := FetchAllPages(api, client, DraftOrdersEndpoint([]), fuel);
      match fetched {
        case Stalled =>
          assert Written(fetched, fault) == [] && Outcome(fetched, fault) == Hung;
          return Hung;
        case Failed(e) =>
          assert Written(fetched, fault) == [] && Outcome(fetched, fault) == Threw(e);
          UpdateSyncLog(logId, SyncStatus.Failed, 0, Some(e.message));
          CloseLast(old(store.syncLogs), StartedLog(OrdersSync, tenant.id), ClosedLog(OrdersSync, tenant.id, Threw(e), 0));
          return Threw(e);
        case Fetched(rs) =>
          outcome := WriteOrders(old(store.Contents()), logId, rs, fault);
      }
    }


    /** The `for` loop of `syncProducts`: one upsert per record, in list order, until the store fails. */
    method UpsertProducts(rs: seq<RawProduct>, fault: Option<StoreFault>) returns (processed: nat)
      modifies store`products
      ensures processed == |Written(Fetched(rs), fault)|
      ensures store.products == UpsertAll(old(store.products), Written(Fetched(rs), fault), tenant.id, RawProductKey, NewProduct, UpdatedProduct)
    {
      processed := 0;
      while processed < |rs|
        invariant processed <= |rs|
        invariant fault.Some? && fault.value.WriteFault? ==> processed <= fault.value.at
        invariant store.products == UpsertAll(old(store.products), rs[..processed], tenant.id, RawProductKey, NewProduct, UpdatedProduct)
      {
        if fault.Some? && fault.value.WriteFault? && fault.value.at == processed {
          assert Written(Fetched(rs), fault) == rs[..processed];
          return;
        }
        UpsertAllSnoc(old(store.products), rs, processed, tenant.id, RawProductKey, NewProduct, UpdatedProduct);
        store.products := Step(store.products, rs[processed], tenant.id, RawProductKey, NewProduct, UpdatedProduct);
        processed := processed + 1;
      }
      assert rs[..processed] == rs;
    }

    /** The `try` block of `syncProducts` once the list is fetched: the upserts, then the closing log. */
    method WriteProducts(ghost s0: Snapshot, logId: nat, rs: seq<RawProduct>, fault: Option<StoreFault>) returns (outcome: SubSync)
      requires logId == |s0.syncLogs| && store.Contents() == Opened(s0, ProductsSync, tenant.id)
      modifies store`products, store`syncLogs
      ensures var run := ProductsRun(s0, tenant.id, Fetched(rs), fault);
              store.Contents() == run.after && outcome == run.outcome
    {
      var processed := UpsertProducts(rs, fault);
      if Fires(fault, |rs|) {
        // the upsert of a record threw, or the `completed` log write did: the `catch` closes the row
        assert Outcome(Fetched(rs), fault) == Threw(fault.value.error);
        UpdateSyncLog(logId, SyncStatus.Failed, processed, Some(fault.value.error.message));
        CloseLast(s0.syncLogs, StartedLog(ProductsSync, tenant.id), ClosedLog(ProductsSync, tenant.id, Threw(fault.value.error), processed));
        return Threw(fault.value.error);
      }
      assert Outcome(Fetched(rs), fault) == Synced(|rs|);
      UpdateSyncLog(logId, Completed, processed, None);
      CloseLast(s0.syncLogs, StartedLog(ProductsSync, tenant.id), ClosedLog(ProductsSync, tenant.id, Synced(processed), processed));
      return Synced(processed);
    }

    method SyncProducts(api: Api<RawProduct>, fuel: nat, fault: Option<StoreFault>) returns (outcome: SubSync)
      modifies store`products, store`syncLogs
      ensures var run := ProductsRun(old(store.Contents()), tenant.id, FetchFrom(api, client.UrlFor(ProductsEndpoint([])), fuel), fault);
              store.Contents() == run.after && outcome == run.outcome
    {
      var logId := CreateSyncLog(ProductsSync);
      var fetched := FetchAllPages(api, client, ProductsEndpoint([]), fuel);
      match fetched {
        case Stalled =>
          assert Written(fetched, fault) == [] && Outcome(fetched, fault) == Hung;
          return Hung;
        case Failed(e) =>
          assert Written(fetched, fault) == [] && Outcome(fetched, fault) == Threw(e);
          UpdateSyncLog(logId, SyncStatus.Failed, 0, Some(e.message));
          CloseLast(old(store.syncLogs), StartedLog(ProductsSync, tenant.id), ClosedLog(ProductsSync, tenant.id, Threw(e), 0));
          return Threw(e);
        case Fetched(rs) =>
          outcome := WriteProducts(old(store.Contents()), logId, rs, fault);
      }
    }


    /**
     * `updateCustomerStatistics`: every customer row of the tenant outside `unreached` gets the
     * sum and count of its orders, other rows stay; a non-empty `unreached` stands for a store
     * failure that stops the pass before those rows.
     */
    method UpdateCustomerStatistics(unreached: set<Key>)
      modifies store`customers
      ensures store.customers == Table(Refreshing(old(store.customers.rows), store.orders.rows, tenant.id, unreached), old(store.customers.nextId))
    {
      var rows, orders := store.customers.rows, store.orders.rows;
      var todo := set k | k in rows && rows[k].tenantId == tenant.id && k !in unreached;
      while todo != {}
        invariant todo <= rows.Keys
        invariant forall j :: j in todo ==> rows[j].tenantId == tenant.id && j !in unreached
        invariant store.customers == Table(Refreshing(rows, orders, tenant.id, todo + unreached), old(store.customers.nextId))
        decreases |todo|
      {
        var k :| k in todo;
        var sum, count := Aggregate(orders, tenant.id, rows[k].shopifyCustomerId);
        RefreshingStep(rows, orders, tenant.id, todo, unreached, k);
        store.customers := store.customers.(rows := store.customers.rows[k := rows[k].(totalSpent := sum, ordersCount := count)]);
        todo := todo - {k};
      }
    }


    /** The bookkeeping after one sub-sync: a success adds its count, a failure its error line. */
    static method Record(outcome: SubSync, heading: string, scope: string, total: nat, errors: seq<string>)
      returns (total': nat, errors': seq<string>)
      requires !outcome.Hung?
      ensures total' == total + Reported(outcome)
      ensures errors' == errors + ErrorLine(heading, outcome, scope)
    {
      total', errors' := total, errors;
      if outcome.Synced? {
        total' := total + outcome.count;
      } else {
        errors' := errors + [heading + ": " + ReadableError(outcome.error, scope)];
      }
    }

    /** The end of `syncAll`: the summary, and the full-sync log row closed with it. */
    method Conclude(logId: nat, c: SubSync, o: SubSync, p: SubSync, total: nat, errors: seq<string>) returns (sum: Summary)
      requires !c.Hung? && !o.Hung? && !p.Hung?
      requires total == Reported(c) + Reported(o) + Reported(p)
      requires errors == ErrorLine("Customers", c, "read_customers") + ErrorLine("Orders", o, "read_orders")
                         + ErrorLine("Products", p, "read_products")
      requires logId < |store.syncLogs| && store.syncLogs[logId] == StartedLog(FullSync, tenant.id)
      modifies store`syncLogs
      ensures sum == Summarize(c, o, p)
      ensures store.syncLogs == old(store.syncLogs)[logId := FullLog(sum, tenant.id)]
    {
      var success := c.Synced? || o.Synced? || p.Synced?;
      SummaryOfRecords(c, o, p, total, errors);
      UpdateSyncLog(logId, if !success then SyncStatus.Failed else Completed, total,
                    if |errors| > 0 then Some(Join(errors, "; ")) else None);
      sum := Summary(success, success && |errors| > 0, Reported(c), Reported(o), Reported(p), total,
                     if |errors| > 0 then Some(errors) else None);
    }

    /** `syncAll`: a failed sub-sync is recorded and the next one still runs. */
    method SyncAll(src: Sources, faults: Faults) returns (summary: Option<Summary>)
      modifies store`customers, store`orders, store`orderItems, store`products, store`syncLogs
      ensures var r := FullRun(old(store.Contents()), tenant.id,
                               FetchFrom(src.customers, client.UrlFor(CustomersEndpoint([])), src.fuel),
                               FetchFrom(src.draftOrders, client.UrlFor(DraftOrdersEndpoint([])), src.fuel),
                               FetchFrom(src.products, client.UrlFor(ProductsEndpoint([])), src.fuel), faults);
              store.Contents() == r.after && summary == r.summary
    {
      ghost var s := store.Contents();
      ghost var fc := FetchFrom(src.customers, client.UrlFor(CustomersEndpoint([])), src.fuel);
      ghost var fd := FetchFrom(src.draftOrders, client.UrlFor(DraftOrdersEndpoint([])), src.fuel);
      ghost var fp := FetchFrom(src.products, client.UrlFor(ProductsEndpoint([])), src.fuel);
      ghost var full := FullRun(s, tenant.id, fc, fd, fp, faults);
      var logId := CreateSyncLog(FullSync);
      assert store.Contents() == Opened(s, FullSync, tenant.id);
      ghost var cr := CustomersRun(Opened(s, FullSync, tenant.id), tenant.id, fc, faults.customers);
      var total := 0;
      var errors: seq<string> := [];
      var c := SyncCustomers(src.customers, src.fuel, faults.customers);
      assert store.Contents() == cr.after && c == cr.outcome;
      if c.Hung? {
        assert full == FullResult(cr.after, None);
        return None;
      }
      total, errors := Record(c, "Customers", "read_customers", total, errors);
      assert errors == ErrorLine("Customers", c, "read_customers");
      ghost var or := OrdersRun(cr.after, tenant.id, fd, faults.orders);
      var o := SyncOrders(src.draftOrders, src.fuel, faults.orders);
      assert store.Contents() == or.after && o == or.outcome;
      if o.Hung? {
        assert full == FullResult(or.after, None);
        return None;
      }
      total, errors := Record(o, "Orders", "read_orders", total, errors);
      ghost var pr := ProductsRun(or.after, tenant.id, fp, faults.products);
      var p := SyncProducts(src.products, src.fuel, faults.products);
      assert store.Contents() == pr.after && p == pr.outcome;
      if p.Hung? {
        assert full == FullResult(pr.after, None);
        return None;
      }
      total, errors := Record(p, "Products", "read_products", total, errors);
      assert full == FullResult(Closed(pr.after, |s.syncLogs|, FullLog(Summarize(c, o, p), tenant.id)), Some(Summarize(c, o, p)));
      assert logId == |s.syncLogs| < |store.syncLogs| && store.syncLogs[logId] == StartedLog(FullSync, tenant.id);
      ghost var before := store.Contents();
      var sum := Conclude(logId, c, o, p, total, errors);
      assert store.Contents() == before.(syncLogs := before.syncLogs[logId := FullLog(sum, tenant.id)]);
      assert store.Contents() == full.after;
      summary := Some(sum);
    }
  }
}
