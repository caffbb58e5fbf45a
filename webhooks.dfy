/**
 * Webhook ingestion: the push entry point that writes the same tables as the pull sync, one
 * record per delivery. A delivery passes the signature guard when it carries an HMAC header and
 * a raw body (the signature itself is never compared), is attributed to the first tenant whose
 * store URL matches its shop domain, and is then upserted with its own field mappings, which
 * differ from the pull sync's. Custom events are accepted for any known tenant.
 */
module Webhooks {
  import opened Wrappers
  import opened Text
  import opened Records
  import opened Upsert
  import opened Shopify
  import opened Database
  import opened Sync

  /** An HTTP reply: its status and, for an error, the `error` text of its JSON body. */
  datatype Reply = Reply(status: nat, error: Option<string>)

  const Unauthorized: Reply := Reply(401, Some("Unauthorized"))
  const TenantNotFound: Reply := Reply(404, Some("Tenant not found"))
  const ProcessingFailed: Reply := Reply(500, Some("Webhook processing failed"))
  const Processed: Reply := Reply(200, None)
  const EventFieldsRequired: Reply := Reply(400, Some("eventType and tenantId are required"))
  const EventTracked: Reply := Reply(201, None)

  /** What a delivery carries besides its payload: the HMAC and shop-domain headers, and whether the raw body was captured. */
  datatype Delivery = Delivery(hmac: Option<string>, shopDomain: Option<string>, rawBody: bool)

  // ---- verifyWebhook ----

  /** The guard: `Some(reply)` ends the request, `None` passes it on (in both environments). */
  function VerifyWebhook(d: Delivery, development: bool): (r: Option<Reply>)
    ensures r.Some? <==> d.hmac.None? || d.hmac.value == "" || !d.rawBody
    ensures r.Some? ==> r.value == Unauthorized
  {
    if d.hmac.None? || d.hmac.value == "" || !d.rawBody then Some(Unauthorized)
    else if development then None
    else None
  }

  /** The signature is never checked: any two non-empty HMAC values pass alike, in either environment. */
  lemma SignatureNeverCompared(d: Delivery, hmac: string, development: bool, development': bool)
    requires d.hmac.Some? && d.hmac.value != "" && hmac != ""
    ensures VerifyWebhook(d, development) == VerifyWebhook(d.(hmac := Some(hmac)), development')
    ensures VerifyWebhook(d, development).None? <==> d.rawBody
  {
  }

  // ---- getTenantFromShop ----

  /** The three alternatives of the tenant query for a normalised shop domain. */
  predicate TenantMatches(t: Tenant, domain: string) {
    || t.shopifyStoreUrl == domain
    || t.shopifyStoreUrl == "https://" + domain
    || Contains(t.shopifyStoreUrl, FirstLabel(domain))
  }

  /** `findFirst`: the position of the first tenant, in store order, that matches. */
  function FirstMatching(tenants: seq<Tenant>, domain: string): (r: Option<nat>)
    ensures r.Some? ==> r.value < |tenants| && TenantMatches(tenants[r.value], domain)
    ensures r.Some? ==> forall j :: 0 <= j < r.value ==> !TenantMatches(tenants[j], domain)
    ensures r.None? <==> forall j :: 0 <= j < |tenants| ==> !TenantMatches(tenants[j], domain)
    decreases |tenants|
  {
    if tenants == [] then None
    else if TenantMatches(tenants[0], domain) then Some(0)
    else match FirstMatching(tenants[1..], domain)
      case None => None
      case Some(i) => Some(i + 1)
  }

  /**
   * The two exact alternatives add nothing: a tenant matches exactly when its store URL contains
   * the domain's first label.
   */
  lemma MatchIsByFirstLabel(t: Tenant, domain: string)
    ensures TenantMatches(t, domain) <==> Contains(t.shopifyStoreUrl, FirstLabel(domain))
  {
    var first := FirstLabel(domain);
    var url := t.shopifyStoreUrl;
    if url == domain {
      assert OccursAt(url, first, 0);
    } else if url == "https://" + domain {
      assert url[8..8 + |first|] == domain[..|first|];
      assert OccursAt(url, first, 8);
    }
  }

  /** An empty first label (an empty domain, or one that starts with a dot) matches every tenant. */
  lemma EmptyLabelMatchesEveryTenant(t: Tenant, domain: string)
    requires domain == "" || domain[0] == '.'
    ensures TenantMatches(t, domain)
  {
    assert FirstLabel(domain) == "";
    assert OccursAt(t.shopifyStoreUrl, "", 0);
  }

  /**
   * The containment alternative can attribute a delivery to another shop: `a.myshopify.com`
   * resolves to a tenant stored as `banana.myshopify.com` listed before the tenant stored as
   * `a.myshopify.com`.
   */
  lemma OtherShopCanMatchFirst(token: string)
    ensures var other := Tenant("t1", "banana.myshopify.com", token, true);
            var own := Tenant("t2", "a.myshopify.com", token, true);
            TenantMatches(own, "a.myshopify.com") && FirstMatching([other, own], "a.myshopify.com") == Some(0)
  {
    var domain := "a.myshopify.com";
    assert FirstIndexOf(domain, '.') == 1;
    assert FirstLabel(domain) == "a";
    assert OccursAt("banana.myshopify.com", "a", 1);
  }

  /** Where a delivery goes before any write: on to a tenant, or ended with a reply. */
  datatype Routed = Proceed(tenant: Tenant) | Stop(reply: Reply)

  /**
   * The guard, then `getTenantFromShop` on the normalised shop domain: a missing domain header
   * makes the normalisation throw, which the handler's `catch` turns into 500.
   */
  function Route(tenants: seq<Tenant>, d: Delivery, development: bool): (r: Routed)
    ensures VerifyWebhook(d, development).Some? ==> r == Stop(Unauthorized)
    ensures VerifyWebhook(d, development).None? && d.shopDomain.None? ==> r == Stop(ProcessingFailed)
    ensures VerifyWebhook(d, development).None? && d.shopDomain.Some? ==>
              var domain := NormalizeStoreUrl(d.shopDomain.value);
              && (r.Stop? <==> forall j :: 0 <= j < |tenants| ==> !TenantMatches(tenants[j], domain))
              && (r.Stop? ==> r.reply == TenantNotFound)
              && (r.Proceed? ==> exists i :: 0 <= i < |tenants| && r.tenant == tenants[i] && TenantMatches(tenants[i], domain)
                                             && forall j :: 0 <= j < i ==> !TenantMatches(tenants[j], domain))
  {
    match VerifyWebhook(d, development)
    case Some(reply) => Stop(reply)
    case None =>
      if d.shopDomain.None? then Stop(ProcessingFailed)
      else match FirstMatching(tenants, NormalizeStoreUrl(d.shopDomain.value))
        case None => Stop(TenantNotFound)
        case Some(i) => Proceed(tenants[i])
  }

  // ---- Field mappings of the webhook upserts ----

  /** `new Date(x)` on a JSON value: `null` is the epoch (a missing key is read as `null`). */
  function DateOf(t: Option<Timestamp>): Timestamp {
    t.GetOr(Epoch)
  }

  /** The customer `create` branch: no currency, tags or marketing flag; only `createdAtShopify` is stamped. */
  function HookNewCustomer(c: RawCustomer, tenant: TenantId, id: RowId): (row: Customer)
    ensures CustomerKey(row) == NaturalKey(c.id, tenant) && row.id == id
    ensures row.currency.None? && row.tags.None? && !row.acceptsMarketing && row.updatedAtShopify.None?
  {
    Customer(id, NatToString(c.id), tenant, c.email, c.firstName, c.lastName, c.phone,
             NumberOr(c.ordersCount, 0), NumberOr(c.totalSpent, 0), None, None, false,
             Some(DateOf(c.createdAt)), None)
  }

  /** The customer `update` branch: contact fields and totals as sent, then `updatedAtShopify`. */
  function HookUpdatedCustomer(row: Customer, c: RawCustomer): (r: Customer)
    ensures r.id == row.id && CustomerKey(r) == CustomerKey(row) && r.createdAtShopify == row.createdAtShopify
    ensures r.currency == row.currency && r.tags == row.tags && r.acceptsMarketing == row.acceptsMarketing
  {
    row.(email := c.email, firstName := c.firstName, lastName := c.lastName, phone := c.phone,
         ordersCount := NumberOr(c.ordersCount, 0), totalSpent := NumberOr(c.totalSpent, 0),
         updatedAtShopify := Some(DateOf(c.updatedAt)))
  }

  /** What the handler sets `customerId` to: a row id, `null`, or nothing at all (`undefined`). */
  datatype Link = Keep | Bind(customerId: Option<RowId>)

  predicate HasCustomerId(o: RawOrder) {
    o.customer.Some? && o.customer.value.id != 0
  }

  /** The customer lookup: an existing customer is bound, a missing one is not created and yields `undefined`. */
  function CustomerLink(customers: Table<Customer>, o: RawOrder, tenant: TenantId): (l: Link)
    ensures !HasCustomerId(o) ==> l == Bind(None)
    ensures HasCustomerId(o) ==>
              var k := NaturalKey(o.customer.value.id, tenant);
              (l == Keep <==> k !in customers.rows) && (k in customers.rows ==> l == Bind(Some(customers.rows[k].id)))
  {
    if !HasCustomerId(o) then Bind(None)
    else
      var k := NaturalKey(o.customer.value.id, tenant);
      if k in customers.rows then Bind(Some(customers.rows[k].id)) else Keep
  }

  /** An order payload with the result of the customer lookup. */
  datatype LinkedOrder = LinkedOrder(order: RawOrder, link: Link)

  /** Webhook orders sit under the plain order id. */
  function LinkedOrderKey(lo: LinkedOrder, tenant: TenantId): Key {
    NaturalKey(lo.order.id, tenant)
  }

  /** The order `create` branch: a regular (non-draft) order; `customerShopifyId` is written here only. */
  function HookNewOrder(lo: LinkedOrder, tenant: TenantId, id: RowId): (row: Order)
    ensures OrderKey(row) == NaturalKey(lo.order.id, tenant) && row.id == id
    ensures !row.isDraft && row.draftStatus.None?
    ensures row.customerShopifyId == (if HasCustomerId(lo.order) then Some(NatToString(lo.order.customer.value.id)) else None)
    ensures row.customerId == (if lo.link.Bind? then lo.link.customerId else None)
  {
    var o := lo.order;
    Order(id, NatToString(o.id), tenant, IdText(o.orderNumber), o.email, o.financialStatus, o.fulfillmentStatus,
          NumberOr(o.totalPrice, 0), NumberOr(o.subtotalPrice, 0), NumberOr(o.totalTax, 0), NumberOr(o.totalDiscounts, 0),
          o.currency, if HasCustomerId(o) then Some(NatToString(o.customer.value.id)) else None,
          if lo.link.Bind? then lo.link.customerId else None, false, None,
          Some(DateOf(o.createdAt)), None, OrNull(o.processedAt))
  }

  /** The order `update` branch: `customerShopifyId`, the draft columns and `processedAt` are left as they were. */
  function HookUpdatedOrder(row: Order, lo: LinkedOrder): (r: Order)
    ensures r.id == row.id && OrderKey(r) == OrderKey(row)
    ensures r.customerShopifyId == row.customerShopifyId && r.isDraft == row.isDraft && r.draftStatus == row.draftStatus
    ensures r.createdAtShopify == row.createdAtShopify && r.processedAt == row.processedAt
    ensures r.customerId == (if lo.link.Bind? then lo.link.customerId else row.customerId)
  {
    var o := lo.order;
    row.(orderNumber := IdText(o.orderNumber), email := o.email, financialStatus := o.financialStatus,
         fulfillmentStatus := o.fulfillmentStatus, totalPrice := NumberOr(o.totalPrice, 0),
         subtotalPrice := NumberOr(o.subtotalPrice, 0), totalTax := NumberOr(o.totalTax, 0),
         totalDiscounts := NumberOr(o.totalDiscounts, 0), currency := o.currency,
         customerId := if lo.link.Bind? then lo.link.customerId else row.customerId,
         updatedAtShopify := Some(DateOf(o.updatedAt)))
  }

  /** The product `create` branch: the first variant and image, no compare-at price. */
  function HookNewProduct(p: RawProduct, tenant: TenantId, id: RowId): (row: Product)
    ensures ProductKey(row) == NaturalKey(p.id, tenant) && row.id == id
    ensures row.compareAtPrice.None? && row.updatedAtShopify.None?
    ensures FirstVariant(p).None? ==> row.price.None? && row.inventoryQuantity == 0
    ensures FirstImageSrc(p).None? ==> row.imageUrl.None?
  {
    var v := FirstVariant(p);
    Product(id, NatToString(p.id), tenant, p.title, p.bodyHtml, p.vendor, p.productType, p.tags, p.status,
            p.handle, FirstImageSrc(p).GetOr(None), VariantPrice(v), None, VariantInventory(v),
            Some(DateOf(p.createdAt)), None)
  }

  /** The product `update` branch: the compare-at price is never written; an undefined image URL is kept. */
  function HookUpdatedProduct(row: Product, p: RawProduct): (r: Product)
    ensures r.id == row.id && ProductKey(r) == ProductKey(row) && r.createdAtShopify == row.createdAtShopify
    ensures r.compareAtPrice == row.compareAtPrice
    ensures FirstImageSrc(p).None? ==> r.imageUrl == row.imageUrl
    ensures FirstImageSrc(p).Some? ==> r.imageUrl == FirstImageSrc(p).value
  {
    var v := FirstVariant(p);
    var src := FirstImageSrc(p);
    row.(title := p.title, description := p.bodyHtml, vendor := p.vendor, productType := p.productType,
         tags := p.tags, status := p.status, handle := p.handle,
         imageUrl := if src.Some? then src.value else row.imageUrl,
         price := VariantPrice(v), inventoryQuantity := VariantInventory(v),
         updatedAtShopify := Some(DateOf(p.updatedAt)))
  }

  // ---- The handlers, as functions of the store's tables ----

  /** A handler's reply and the tables it leaves. */
  datatype Handled = Handled(reply: Reply, after: Snapshot)

  /** `POST /customers/create`. */
  function CustomerHook(tenants: seq<Tenant>, s: Snapshot, d: Delivery, development: bool, c: RawCustomer): Handled {
    match Route(tenants, d, development)
    case Stop(reply) => Handled(reply, s)
    case Proceed(t) =>
      Handled(Processed, s.(customers := Step(s.customers, c, t.id, RawCustomerKey, HookNewCustomer, HookUpdatedCustomer)))
  }

  /** The order upsert of `POST /orders/create`, after the customer lookup. */
  function UpsertHookOrder(s: Snapshot, o: RawOrder, tenant: TenantId): (orders: Table<Order>)
    ensures NaturalKey(o.id, tenant) in orders.rows
  {
    Step(s.orders, LinkedOrder(o, CustomerLink(s.customers, o, tenant)), tenant, LinkedOrderKey, HookNewOrder, HookUpdatedOrder)
  }

  /** The writes of `POST /orders/create` for a resolved tenant: the order, then its line items when the list is non-empty. */
  function ApplyHookOrder(s: Snapshot, o: RawOrder, tenant: TenantId): Snapshot {
    var orders := UpsertHookOrder(s, o, tenant);
    var orderId := orders.rows[NaturalKey(o.id, tenant)].id;
    var items :=
      if o.lineItems.Some? && |o.lineItems.value| > 0 then RemoveItemsOf(s.orderItems, orderId) + NewItems(o.lineItems.value, orderId)
      else s.orderItems;
    s.(orders := orders, orderItems := items)
  }

  /** `POST /orders/create`. */
  function OrderHook(tenants: seq<Tenant>, s: Snapshot, d: Delivery, development: bool, o: RawOrder): Handled {
    match Route(tenants, d, development)
    case Stop(reply) => Handled(reply, s)
    case Proceed(t) => Handled(Processed, ApplyHookOrder(s, o, t.id))
  }

  /** `POST /products/create`. */
  function ProductHook(tenants: seq<Tenant>, s: Snapshot, d: Delivery, development: bool, p: RawProduct): Handled {
    match Route(tenants, d, development)
    case Stop(reply) => Handled(reply, s)
    case Proceed(t) =>
      Handled(Processed, s.(products := Step(s.products, p, t.id, RawProductKey, HookNewProduct, HookUpdatedProduct)))
  }

  // ---- What the handlers guarantee ----

  /** A refused delivery (no HMAC or body, no shop domain, no matching tenant) writes no table. */
  lemma RefusedWritesNothing(tenants: seq<Tenant>, s: Snapshot, d: Delivery, development: bool,
                             c: RawCustomer, o: RawOrder, p: RawProduct)
    requires Route(tenants, d, development).Stop?
    ensures var reply := Route(tenants, d, development).reply;
            && reply.status in {401, 404, 500}
            && CustomerHook(tenants, s, d, development, c) == Handled(reply, s)
            && OrderHook(tenants, s, d, development, o) == Handled(reply, s)
            && ProductHook(tenants, s, d, development, p) == Handled(reply, s)
  {
  }

  /**
   * A webhook order is written under its plain id: rows under draft keys (and every other row)
   * are untouched, and no customer, product or sync-log row changes.
   */
  lemma OrderHookLeavesDrafts(tenants: seq<Tenant>, s: Snapshot, d: Delivery, development: bool, o: RawOrder)
    requires Route(tenants, d, development).Proceed?
    ensures var t := Route(tenants, d, development).tenant;
            var a := OrderHook(tenants, s, d, development, o).after;
            && a.customers == s.customers && a.products == s.products && a.syncLogs == s.syncLogs
            && a.orders.rows.Keys == s.orders.rows.Keys + {NaturalKey(o.id, t.id)}
            && (forall k :: k in s.orders.rows && k != NaturalKey(o.id, t.id) ==> a.orders.rows[k] == s.orders.rows[k])
            && (forall id, tenant :: DraftKey(id, tenant) in s.orders.rows ==>
                  a.orders.rows[DraftKey(id, tenant)] == s.orders.rows[DraftKey(id, tenant)])
  {
    var t := Route(tenants, d, development).tenant;
    forall id, tenant | DraftKey(id, tenant) in s.orders.rows
      ensures DraftKey(id, tenant) != NaturalKey(o.id, t.id)
    {
      if tenant == t.id {
        DraftKeyDisjoint(id, o.id, tenant);
      }
    }
  }

  /** The customer references of the order row one order upsert leaves, for tenant `tenant`. */
  lemma UpsertHookOrderRefs(s: Snapshot, o: RawOrder, tenant: TenantId)
    ensures var k := NaturalKey(o.id, tenant);
            var row := UpsertHookOrder(s, o, tenant).rows[k];
            && (k in s.orders.rows ==> row.customerShopifyId == s.orders.rows[k].customerShopifyId)
            && (k !in s.orders.rows ==>
                  row.customerShopifyId == if HasCustomerId(o) then Some(NatToString(o.customer.value.id)) else None)
            && (!HasCustomerId(o) ==> row.customerId.None?)
            && (HasCustomerId(o) && NaturalKey(o.customer.value.id, tenant) in s.customers.rows ==>
                  row.customerId == Some(s.customers.rows[NaturalKey(o.customer.value.id, tenant)].id))
            && (HasCustomerId(o) && NaturalKey(o.customer.value.id, tenant) !in s.customers.rows ==>
                  row.customerId == if k in s.orders.rows then s.orders.rows[k].customerId else None)
  {
    var k := NaturalKey(o.id, tenant);
    var lo := LinkedOrder(o, CustomerLink(s.customers, o, tenant));
    if k in s.orders.rows {
      assert UpsertHookOrder(s, o, tenant).rows[k] == HookUpdatedOrder(s.orders.rows[k], lo);
    } else {
      assert UpsertHookOrder(s, o, tenant).rows[k] == HookNewOrder(lo, tenant, s.orders.nextId);
    }
  }

  /**
   * The customer references of a webhook order: `customerShopifyId` is written when the order
   * is created and never on update; `customerId` is bound to an existing customer, cleared when
   * the payload names no customer, and left alone when the named customer is not stored.
   */
  lemma OrderHookCustomerRefs(tenants: seq<Tenant>, s: Snapshot, d: Delivery, development: bool, o: RawOrder)
    requires Route(tenants, d, development).Proceed?
    ensures var t := Route(tenants, d, development).tenant;
            var k := NaturalKey(o.id, t.id);
            var row := OrderHook(tenants, s, d, development, o).after.orders.rows[k];
            && (k in s.orders.rows ==> row.customerShopifyId == s.orders.rows[k].customerShopifyId)
            && (k !in s.orders.rows ==>
                  row.customerShopifyId == if HasCustomerId(o) then Some(NatToString(o.customer.value.id)) else None)
            && (!HasCustomerId(o) ==> row.customerId.None?)
            && (HasCustomerId(o) && NaturalKey(o.customer.value.id, t.id) in s.customers.rows ==>
                  row.customerId == Some(s.customers.rows[NaturalKey(o.customer.value.id, t.id)].id))
            && (HasCustomerId(o) && NaturalKey(o.customer.value.id, t.id) !in s.customers.rows ==>
                  row.customerId == if k in s.orders.rows then s.orders.rows[k].customerId else None)
  {
    var t := Route(tenants, d, development).tenant;
    UpsertHookOrderRefs(s, o, t.id);
    assert OrderHook(tenants, s, d, development, o).after.orders == UpsertHookOrder(s, o, t.id);
  }

  /**
   * Line items of a webhook order: a non-empty list becomes exactly the order's items, in list
   * order, and other orders keep theirs; an empty or absent list leaves all items alone.
   */
  lemma OrderHookItems(tenants: seq<Tenant>, s: Snapshot, d: Delivery, development: bool, o: RawOrder, other: RowId)
    requires Route(tenants, d, development).Proceed?
    ensures var t := Route(tenants, d, development).tenant;
            var a := OrderHook(tenants, s, d, development, o).after;
            var id := a.orders.rows[NaturalKey(o.id, t.id)].id;
            && (o.lineItems.Some? && |o.lineItems.value| > 0 ==>
                  && ItemsOf(a.orderItems, id) == NewItems(o.lineItems.value, id)
                  && (other != id ==> ItemsOf(a.orderItems, other) == ItemsOf(s.orderItems, other)))
            && (o.lineItems.None? || |o.lineItems.value| == 0 ==> a.orderItems == s.orderItems)
  {
    var t := Route(tenants, d, development).tenant;
    var id := UpsertHookOrder(s, o, t.id).rows[NaturalKey(o.id, t.id)].id;
    if o.lineItems.Some? && |o.lineItems.value| > 0 {
      ItemsReplaced(s.orderItems, id, o.lineItems.value, other);
    }
  }

  /** Every handler keeps its table keyed: each row stays under the key its own columns spell. */
  lemma HooksKeepKeys(tenants: seq<Tenant>, s: Snapshot, d: Delivery, development: bool,
                      c: RawCustomer, o: RawOrder, p: RawProduct)
    requires KeyedBy(s.customers.rows, CustomerKey) && KeyedBy(s.orders.rows, OrderKey) && KeyedBy(s.products.rows, ProductKey)
    ensures KeyedBy(CustomerHook(tenants, s, d, development, c).after.customers.rows, CustomerKey)
    ensures KeyedBy(OrderHook(tenants, s, d, development, o).after.orders.rows, OrderKey)
    ensures KeyedBy(ProductHook(tenants, s, d, development, p).after.products.rows, ProductKey)
  {
    match Route(tenants, d, development)
    case Stop(_) =>
    case Proceed(t) =>
      StepKeyed(s.customers, c, t.id, RawCustomerKey, HookNewCustomer, HookUpdatedCustomer, CustomerKey);
      var lo := LinkedOrder(o, CustomerLink(s.customers, o, t.id));
      StepKeyed(s.orders, lo, t.id, LinkedOrderKey, HookNewOrder, HookUpdatedOrder, OrderKey);
      StepKeyed(s.products, p, t.id, RawProductKey, HookNewProduct, HookUpdatedProduct, ProductKey);
  }

  /** Delivering a customer payload again, once its row exists, changes nothing. */
  lemma CustomerRedelivery(tenants: seq<Tenant>, s: Snapshot, d: Delivery, development: bool, c: RawCustomer)
    requires Route(tenants, d, development).Proceed?
    requires NaturalKey(c.id, Route(tenants, d, development).tenant.id) in s.customers.rows
    ensures var h := CustomerHook(tenants, s, d, development, c);
            CustomerHook(tenants, h.after, d, development, c) == h
  {
    var t := Route(tenants, d, development).tenant;
    var k := NaturalKey(c.id, t.id);
    var once := HookUpdatedCustomer(s.customers.rows[k], c);
    assert HookUpdatedCustomer(once, c) == once;
    assert s.customers.rows[k := once][k := once] == s.customers.rows[k := once];
  }

  /** After any delivery the handler accepted, the customer row exists, so a further delivery settles. */
  lemma CustomerDeliveryStores(tenants: seq<Tenant>, s: Snapshot, d: Delivery, development: bool, c: RawCustomer)
    requires Route(tenants, d, development).Proceed?
    ensures var h := CustomerHook(tenants, s, d, development, c);
            h.reply == Processed && NaturalKey(c.id, Route(tenants, d, development).tenant.id) in h.after.customers.rows
  {
  }

  /**
   * The webhook and the pull sync do not share their customer mapping: an empty e-mail is stored
   * as sent by the webhook and as `null` by the sync, and an update by the webhook keeps the
   * marketing flag that the sync overwrites.
   */
  lemma CustomerMappingsDiffer(c: RawCustomer, tenant: TenantId, id: RowId, row: Customer)
    requires c.email == Some("") && c.acceptsMarketing.None? && row.acceptsMarketing
    ensures HookNewCustomer(c, tenant, id).email == Some("") && NewCustomer(c, tenant, id).email.None?
    ensures HookUpdatedCustomer(row, c).acceptsMarketing && !UpdatedCustomer(row, c).acceptsMarketing
  {
  }

  // ---- /events ----

  /** The JSON body of `POST /events`; `None` is an absent or `null` property. */
  datatype EventBody = EventBody(
    eventType: Option<string>, customerId: Option<string>, customerEmail: Option<string>,
    sessionId: Option<string>, data: Option<string>, tenantId: Option<string>)

  predicate KnownTenant(tenants: seq<Tenant>, id: TenantId) {
    exists t | t in tenants :: t.id == id
  }

  /** The guards of `/events`: both required fields non-empty, then a tenant with that id. */
  function EventGuard(tenants: seq<Tenant>, b: EventBody): (r: Option<Reply>)
    ensures r == Some(EventFieldsRequired) <==> b.eventType.None? || b.eventType.value == "" || b.tenantId.None? || b.tenantId.value == ""
    ensures r == Some(TenantNotFound) <==>
              b.eventType.Some? && b.eventType.value != "" && b.tenantId.Some? && b.tenantId.value != ""
              && forall t :: t in tenants ==> t.id != b.tenantId.value
    ensures r.None? || r == Some(EventFieldsRequired) || r == Some(TenantNotFound)
  {
    if b.eventType.None? || b.eventType.value == "" || b.tenantId.None? || b.tenantId.value == "" then Some(EventFieldsRequired)
    else if !KnownTenant(tenants, b.tenantId.value) then Some(TenantNotFound)
    else None
  }

  /** The routes of the webhook router over one store. */
  class WebhookRouter {
    const store: Store
    /** Whether the server runs with `NODE_ENV` set to `development`. */
    const development: bool

    constructor(store: Store, development: bool)
      ensures this.store == store && this.development == development
    {
      this.store := store;
      this.development := development;
    }

    method CustomersCreate(d: Delivery, c: RawCustomer) returns (reply: Reply)
      modifies store`customers
      ensures var h := CustomerHook(store.tenants, old(store.Contents()), d, development, c);
              reply == h.reply && store.Contents() == h.after
    {
      var routed := Route(store.tenants, d, development);
      if routed.Stop? {
        return routed.reply;
      }
      store.customers := Step(store.customers, c, routed.tenant.id, RawCustomerKey, HookNewCustomer, HookUpdatedCustomer);
      reply := Processed;
    }

    /** The body of the order handler once the tenant is known. */
    method WriteOrder(o: RawOrder, tenant: TenantId)
      modifies store`orders, store`orderItems
      ensures store.Contents() == ApplyHookOrder(old(store.Contents()), o, tenant)
    {
      var link: Link := Bind(None);
      if HasCustomerId(o) {
        var k := NaturalKey(o.customer.value.id, tenant);
        link := if k in store.customers.rows then Bind(Some(store.customers.rows[k].id)) else Keep;
      }
      store.orders := Step(store.orders, LinkedOrder(o, link), tenant, LinkedOrderKey, HookNewOrder, HookUpdatedOrder);
      var orderId := store.orders.rows[NaturalKey(o.id, tenant)].id;
      if o.lineItems.Some? && |o.lineItems.value| > 0 {
        store.ReplaceItems(orderId, o.lineItems.value, None);
      }
    }

    method OrdersCreate(d: Delivery, o: RawOrder) returns (reply: Reply)
      modifies store`orders, store`orderItems
      ensures var h := OrderHook(store.tenants, old(store.Contents()), d, development, o);
              reply == h.reply && store.Contents() == h.after
    {
      var routed := Route(store.tenants, d, development);
      if routed.Stop? {
        return routed.reply;
      }
      WriteOrder(o, routed.tenant.id);
      reply := Processed;
    }

    method ProductsCreate(d: Delivery, p: RawProduct) returns (reply: Reply)
      modifies store`products
      ensures var h := ProductHook(store.tenants, old(store.Contents()), d, development, p);
              reply == h.reply && store.Contents() == h.after
    {
      var routed := Route(store.tenants, d, development);
      if routed.Stop? {
        return routed.reply;
      }
      store.products := Step(store.products, p, routed.tenant.id, RawProductKey, HookNewProduct, HookUpdatedProduct);
      reply := Processed;
    }

    /** `POST /events`: exactly one event row when the guards pass, none otherwise. */
    method TrackEvent(b: EventBody) returns (reply: Reply)
      modifies store`events
      ensures var refused := EventGuard(store.tenants, b);
              && (refused.Some? ==> reply == refused.value && store.events == old(store.events))
              && (refused.None? ==>
                    && reply == EventTracked
                    && store.events == old(store.events) + [Event(b.eventType.value, b.customerId, b.customerEmail,
                                                                  b.sessionId, b.data, b.tenantId.value)])
    {
      var refused := EventGuard(store.tenants, b);
      if refused.Some? {
        return refused.value;
      }
      store.events := store.events + [Event(b.eventType.value, b.customerId, b.customerEmail, b.sessionId, b.data, b.tenantId.value)];
      reply := EventTracked;
    }
  }
}
