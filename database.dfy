/**
 * The store the ingestion engine writes: three tables under their composite unique key
 * (customers, orders, products), the line items of orders, the sync-log rows, the tenants and
 * the tracked events. Each call on the store is atomic; races between overlapping runs are
 * not part of this model.
 */
module Database {
  import opened Wrappers
  import opened Records
  import opened Upsert

  /** The key columns of each keyed table. */
  function CustomerKey(c: Customer): Key { Key(c.shopifyCustomerId, c.tenantId) }
  function OrderKey(o: Order): Key { Key(o.shopifyOrderId, o.tenantId) }
  function ProductKey(p: Product): Key { Key(p.shopifyProductId, p.tenantId) }

  /** The tables a sync run writes, as one value. */
  datatype Snapshot = Snapshot(
    customers: Table<Customer>, orders: Table<Order>, orderItems: seq<OrderItem>,
    products: Table<Product>, syncLogs: seq<SyncLog>)

  class Store {
    var customers: Table<Customer>
    var orders: Table<Order>
    var orderItems: seq<OrderItem>
    var products: Table<Product>
    var syncLogs: seq<SyncLog>
    var tenants: seq<Tenant>
    var events: seq<Event>

    /** Every row of a keyed table sits under the key its own key columns spell. */
    ghost predicate Valid()
      reads this
    {
      && KeyedBy(customers.rows, CustomerKey)
      && KeyedBy(orders.rows, OrderKey)
      && KeyedBy(products.rows, ProductKey)
    }

    function Contents(): Snapshot
      reads this
    {
      Snapshot(customers, orders, orderItems, products, syncLogs)
    }

    /** An empty store that knows the given tenants. */
    constructor(tenants: seq<Tenant>)
      ensures Valid()
      ensures this.tenants == tenants && events == [] && syncLogs == [] && orderItems == []
      ensures customers.rows == map[] && orders.rows == map[] && products.rows == map[]
    {
      customers := Table(map[], 1);
      orders := Table(map[], 1);
      orderItems := [];
      products := Table(map[], 1);
      syncLogs := [];
      this.tenants := tenants;
      events := [];
    }

    /**
     * `deleteMany({ where: { orderId } })` followed by one `create` per line item, in order: the
     * items of every other order stay where they were. With `failAt` the store throws on that
     * write (0 is the `deleteMany`) and the writes after it are not made.
     */
    method ReplaceItems(orderId: RowId, lineItems: seq<RawLineItem>, failAt: Option<nat>)
      requires failAt.Some? ==> failAt.value <= |lineItems|
      modifies this`orderItems
      ensures orderItems == PartlyReplaced(old(orderItems), orderId, lineItems, failAt.GetOr(1 + |lineItems|))
    {
      if failAt == Some(0) { return; }
      orderItems := RemoveItemsOf(orderItems, orderId);
      ghost var kept := orderItems;
      for i := 0 to |lineItems|
        invariant failAt.Some? ==> i < failAt.value
        invariant orderItems == kept + NewItems(lineItems[..i], orderId)
      {
        if failAt == Some(i + 1) { return; }
        assert lineItems[..i + 1][..i] == lineItems[..i];
        orderItems := orderItems + [NewItem(lineItems[i], orderId)];
      }
      assert lineItems[..|lineItems|] == lineItems;
    }
  }

  // ---- Line items ----

  /**
   * The row created for one line item: ids become text when truthy, quantity defaults to 1
   * (so it is never 0) and price to 0.
   */
  function NewItem(li: RawLineItem, orderId: RowId): (item: OrderItem)
    ensures item.orderId == orderId
    ensures item.quantity != 0
    ensures li.quantity.Some? && li.quantity.value != 0 ==> item.quantity == li.quantity.value
    ensures li.quantity.None? ==> item.quantity == 1
    ensures item.price == li.price.GetOr(0)
    ensures item.shopifyLineId.Some? <==> li.id.Some? && li.id.value != 0
    ensures item.title == li.title && item.variantTitle == li.variantTitle && item.sku == li.sku
  {
    OrderItem(orderId, IdText(li.id), IdText(li.productId), IdText(li.variantId),
              li.title, li.variantTitle, NumberOr(li.quantity, 1), NumberOr(li.price, 0), li.sku)
  }

  /** The rows created for the line items of one order, in source order. */
  function NewItems(lineItems: seq<RawLineItem>, orderId: RowId): (items: seq<OrderItem>)
    ensures |items| == |lineItems|
    ensures forall i :: 0 <= i < |items| ==> items[i] == NewItem(lineItems[i], orderId)
    decreases |lineItems|
  {
    if lineItems == [] then []
    else NewItems(lineItems[..|lineItems| - 1], orderId) + [NewItem(lineItems[|lineItems| - 1], orderId)]
  }

  /**
   * The items after the first `m` writes of replacing the items of order `orderId`: none, or the
   * `deleteMany` and then a `create` for each of the first `m - 1` line items.
   */
  function PartlyReplaced(items: seq<OrderItem>, orderId: RowId, lineItems: seq<RawLineItem>, m: nat): (r: seq<OrderItem>)
    requires m <= 1 + |lineItems|
    ensures m == 0 ==> r == items
    ensures m == 1 + |lineItems| ==> r == RemoveItemsOf(items, orderId) + NewItems(lineItems, orderId)
  {
    if m == 0 then items
    else
      assert lineItems[..|lineItems|] == lineItems;
      RemoveItemsOf(items, orderId) + NewItems(lineItems[..m - 1], orderId)
  }

  /** The items of order `orderId`, in table order. */
  function ItemsOf(items: seq<OrderItem>, orderId: RowId): (r: seq<OrderItem>)
    ensures forall i :: 0 <= i < |r| ==> r[i].orderId == orderId
    ensures |r| <= |items|
  {
    if items == [] then []
    else (if items[0].orderId == orderId then [items[0]] else []) + ItemsOf(items[1..], orderId)
  }

  /** `deleteMany` on the items of order `orderId`. */
  function RemoveItemsOf(items: seq<OrderItem>, orderId: RowId): (r: seq<OrderItem>)
    ensures forall i :: 0 <= i < |r| ==> r[i].orderId != orderId
    ensures |r| <= |items|
  {
    if items == [] then []
    else (if items[0].orderId != orderId then [items[0]] else []) + RemoveItemsOf(items[1..], orderId)
  }

  lemma {:induction false} ItemsOfAppend(a: seq<OrderItem>, b: seq<OrderItem>, orderId: RowId)
    ensures ItemsOf(a + b, orderId) == ItemsOf(a, orderId) + ItemsOf(b, orderId)
    decreases |a|
  {
    if a != [] {
      assert (a + b)[1..] == a[1..] + b;
      ItemsOfAppend(a[1..], b, orderId);
    } else {
      assert a + b == b;
    }
  }

  lemma {:induction false} ItemsOfRemoved(items: seq<OrderItem>, removed: RowId, orderId: RowId)
    ensures ItemsOf(RemoveItemsOf(items, removed), orderId) == if orderId == removed then [] else ItemsOf(items, orderId)
    decreases |items|
  {
    if items != [] {
      ItemsOfRemoved(items[1..], removed, orderId);
      var head := if items[0].orderId != removed then [items[0]] else [];
      ItemsOfAppend(head, RemoveItemsOf(items[1..], removed), orderId);
    }
  }

  /** Items that all belong to one order: filtering by that order keeps all, by any other keeps none. */
  lemma {:induction false} ItemsOfUniform(items: seq<OrderItem>, owner: RowId, orderId: RowId)
    requires forall i :: 0 <= i < |items| ==> items[i].orderId == owner
    ensures ItemsOf(items, orderId) == if orderId == owner then items else []
    decreases |items|
  {
    if items != [] {
      ItemsOfUniform(items[1..], owner, orderId);
      if orderId == owner {
        assert [items[0]] + items[1..] == items;
      }
    }
  }

  /**
   * Replacing the items of an order leaves exactly the new items, in source order, under that
   * order, and the items of every other order as they were.
   */
  lemma ItemsReplaced(items: seq<OrderItem>, orderId: RowId, lineItems: seq<RawLineItem>, other: RowId)
    ensures ItemsOf(RemoveItemsOf(items, orderId) + NewItems(lineItems, orderId), orderId) == NewItems(lineItems, orderId)
    ensures other != orderId ==>
      ItemsOf(RemoveItemsOf(items, orderId) + NewItems(lineItems, orderId), other) == ItemsOf(items, other)
  {
    var kept, added := RemoveItemsOf(items, orderId), NewItems(lineItems, orderId);
    ItemsOfAppend(kept, added, orderId);
    ItemsOfAppend(kept, added, other);
    ItemsOfRemoved(items, orderId, orderId);
    ItemsOfRemoved(items, orderId, other);
    ItemsOfUniform(added, orderId, orderId);
    ItemsOfUniform(added, orderId, other);
  }
}
