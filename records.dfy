/**
 * The entities of the ingestion engine: the raw records the commerce API returns, the rows
 * of the per-tenant tables, sync-log rows, tenants, events and thrown errors.
 *
 * Conventions: money is integer cents (the source parses decimal strings with `parseFloat`);
 * a raw money field carries the parse result, `None` when the field is absent or does not parse.
 * A date is represented by the text `toISOString()` gives for it. `None` in a raw record is a
 * JSON `null`.
 */
module Records {
  import opened Wrappers
  import opened Text

  type TenantId = string
  type RowId = nat
  type Cents = int
  type Timestamp = string

  /** `new Date(null).toISOString()`. */
  const Epoch: Timestamp := "1970-01-01T00:00:00.000Z"

  /** The natural key of every synced table: (external id as text, tenant). */
  datatype Key = Key(externalId: string, tenantId: TenantId)

  // ---- Raw records as the commerce API returns them ----

  datatype RawCustomer = RawCustomer(
    id: nat,
    email: Option<string>, firstName: Option<string>, lastName: Option<string>, phone: Option<string>,
    ordersCount: Option<int>, totalSpent: Option<Cents>,
    currency: Option<string>, tags: Option<string>, acceptsMarketing: Option<bool>,
    createdAt: Option<Timestamp>, updatedAt: Option<Timestamp>)

  datatype RawLineItem = RawLineItem(
    id: Option<nat>, productId: Option<nat>, variantId: Option<nat>,
    title: Option<string>, variantTitle: Option<string>,
    quantity: Option<int>, price: Option<Cents>, sku: Option<string>)

  datatype RawDraftOrder = RawDraftOrder(
    id: nat, name: Option<string>, email: Option<string>,
    totalPrice: Option<Cents>, subtotalPrice: Option<Cents>, totalTax: Option<Cents>,
    currency: Option<string>, customer: Option<RawCustomer>,
    lineItems: Option<seq<RawLineItem>>, status: Option<string>,
    createdAt: Option<Timestamp>, updatedAt: Option<Timestamp>)

  datatype RawOrder = RawOrder(
    id: nat, orderNumber: Option<nat>, email: Option<string>,
    financialStatus: Option<string>, fulfillmentStatus: Option<string>,
    totalPrice: Option<Cents>, subtotalPrice: Option<Cents>, totalTax: Option<Cents>, totalDiscounts: Option<Cents>,
    currency: Option<string>, customer: Option<RawCustomer>, lineItems: Option<seq<RawLineItem>>,
    createdAt: Option<Timestamp>, updatedAt: Option<Timestamp>, processedAt: Option<Timestamp>)

  datatype RawVariant = RawVariant(price: Option<Cents>, compareAtPrice: Option<Cents>, inventoryQuantity: Option<int>)

  datatype RawImage = RawImage(src: Option<string>)

  datatype RawProduct = RawProduct(
    id: nat, title: Option<string>, bodyHtml: Option<string>, vendor: Option<string>,
    productType: Option<string>, tags: Option<string>, status: Option<string>, handle: Option<string>,
    images: Option<seq<RawImage>>, variants: Option<seq<RawVariant>>,
    createdAt: Option<Timestamp>, updatedAt: Option<Timestamp>)

  // ---- Rows of the store ----

  datatype Customer = Customer(
    id: RowId, shopifyCustomerId: string, tenantId: TenantId,
    email: Option<string>, firstName: Option<string>, lastName: Option<string>, phone: Option<string>,
    ordersCount: int, totalSpent: Cents, currency: Option<string>, tags: Option<string>,
    acceptsMarketing: bool, createdAtShopify: Option<Timestamp>, updatedAtShopify: Option<Timestamp>)

  datatype Order = Order(
    id: RowId, shopifyOrderId: string, tenantId: TenantId,
    orderNumber: Option<string>, email: Option<string>,
    financialStatus: Option<string>, fulfillmentStatus: Option<string>,
    totalPrice: Cents, subtotalPrice: Cents, totalTax: Cents, totalDiscounts: Cents,
    currency: Option<string>, customerShopifyId: Option<string>, customerId: Option<RowId>,
    isDraft: bool, draftStatus: Option<string>,
    createdAtShopify: Option<Timestamp>, updatedAtShopify: Option<Timestamp>, processedAt: Option<Timestamp>)

  datatype OrderItem = OrderItem(
    orderId: RowId, shopifyLineId: Option<string>, productId: Option<string>, variantId: Option<string>,
    title: Option<string>, variantTitle: Option<string>, quantity: int, price: Cents, sku: Option<string>)

  datatype Product = Product(
    id: RowId, shopifyProductId: string, tenantId: TenantId,
    title: Option<string>, description: Option<string>, vendor: Option<string>, productType: Option<string>,
    tags: Option<string>, status: Option<string>, handle: Option<string>, imageUrl: Option<string>,
    price: Option<Cents>, compareAtPrice: Option<Cents>, inventoryQuantity: int,
    createdAtShopify: Option<Timestamp>, updatedAtShopify: Option<Timestamp>)

  datatype SyncType = CustomersSync | OrdersSync | ProductsSync | FullSync

  datatype SyncStatus = Started | Completed | Failed

  datatype SyncLog = SyncLog(
    syncType: SyncType, status: SyncStatus, recordsProcessed: nat,
    errorMessage: Option<string>, tenantId: TenantId)

  datatype Tenant = Tenant(id: TenantId, shopifyStoreUrl: string, shopifyAccessToken: string, isActive: bool)

  datatype Event = Event(
    eventType: string, customerId: Option<string>, customerEmail: Option<string>,
    sessionId: Option<string>, data: Option<string>, tenantId: TenantId)

  /** A thrown error: its `response.status` (absent for network faults) and its `message`. */
  datatype Error = Error(status: Option<int>, message: string)

  // ---- JavaScript coercions used by the mappings ----

  /** `x || null` on a string: the empty string is falsy and becomes null. */
  function OrNull(x: Option<string>): (r: Option<string>)
    ensures r.Some? ==> r.value != "" && r == x
    ensures x.Some? && x.value != "" ==> r == x
  {
    if x.Some? && x.value != "" then x else None
  }

  /** `x || d` on a number: `0`, null and NaN are falsy and give `d`. */
  function NumberOr(x: Option<int>, d: int): (r: int)
    ensures r == d || (x.Some? && r == x.value && r != 0)
    ensures x.Some? && x.value != 0 ==> r == x.value
  {
    if x.Some? && x.value != 0 then x.value else d
  }

  /** `x ? String(x) : null` on an id: `0` is falsy. */
  function IdText(x: Option<nat>): (r: Option<string>)
    ensures r.Some? <==> x.Some? && x.value != 0
  {
    if x.Some? && x.value != 0 then Some(NatToString(x.value)) else None
  }

  /** The key `(String(id), tenantId)` shared by customers, products and webhook orders. */
  function NaturalKey(id: nat, tenant: TenantId): Key {
    Key(NatToString(id), tenant)
  }

  /** The key of an order synced from the draft-order collection: `"draft_" + id`. */
  function DraftKey(id: nat, tenant: TenantId): Key {
    Key("draft_" + NatToString(id), tenant)
  }

  /** Draft keys and plain keys never collide, whatever the two ids are. */
  lemma DraftKeyDisjoint(draftId: nat, orderId: nat, tenant: TenantId)
    ensures DraftKey(draftId, tenant) != NaturalKey(orderId, tenant)
  {
    var plain := NatToString(orderId);
    assert IsDigit(plain[0]);
    assert ("draft_" + NatToString(draftId))[0] == 'd';
  }

  /** Keys built from distinct ids (or for distinct tenants) are distinct. */
  lemma NaturalKeyInjective(a: nat, b: nat, t1: TenantId, t2: TenantId)
    requires NaturalKey(a, t1) == NaturalKey(b, t2)
    ensures a == b && t1 == t2
  {
    NatToStringInjective(a, b);
  }
}
