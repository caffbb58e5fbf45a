/**
 * The products routes: the paginated list of a tenant's products, searched by title, vendor or
 * product type, filtered by status, most recently stored first; and one product.
 */
module ProductsRoute {
  import opened Wrappers
  import opened Text
  import opened Records
  import opened Upsert
  import opened Database
  import opened Listing

  const FetchProductsFailed: string := "Failed to fetch products"
  const ProductNotFound: string := "Product not found"

  /** The columns the search looks in. */
  datatype ProductColumn = TitleColumn | VendorColumn | ProductTypeColumn

  function ColumnOf(p: Product, column: ProductColumn): Option<string> {
    match column
    case TitleColumn => p.title
    case VendorColumn => p.vendor
    case ProductTypeColumn => p.productType
  }

  /** The query of the list route; `search` and `status` are used only when non-empty. */
  datatype ProductQuery = ProductQuery(paging: PageQuery, search: Option<string>, status: Option<string>)

  /** The `where` object: the tenant, an optional `OR` list and an optional status. */
  datatype ProductWhere = ProductWhere(tenantId: TenantId, anyOf: Option<seq<Condition<ProductColumn>>>, status: Option<string>)

  predicate ProductMatches(w: ProductWhere, p: Product) {
    && p.tenantId == w.tenantId
    && AnyHolds(w.anyOf, ColumnOf, p)
    && (w.status.Some? ==> p.status == w.status)
  }

  /**
   * The products a query asks for: the tenant's, whose title, vendor or product type holds the
   * search text, and with the given status.
   */
  predicate ProductFilter(tenantId: TenantId, q: ProductQuery, p: Product) {
    && p.tenantId == tenantId
    && (Given(q.search) ==>
          ColumnContains(p.title, q.search.value)
          || ColumnContains(p.vendor, q.search.value)
          || ColumnContains(p.productType, q.search.value))
    && (Given(q.status) ==> p.status == q.status)
  }

  /** Builds the `where` object step by step, as the route does. */
  method BuildProductWhere(tenantId: TenantId, q: ProductQuery) returns (w: ProductWhere)
    ensures forall p :: ProductMatches(w, p) <==> ProductFilter(tenantId, q, p)
  {
    w := ProductWhere(tenantId, None, None);
    if Given(q.search) {
      var text := q.search.value;
      w := w.(anyOf := Some([ContainsText(TitleColumn, text), ContainsText(VendorColumn, text), ContainsText(ProductTypeColumn, text)]));
      assert forall p :: ProductFilter(tenantId, q, p) ==> AnyHolds(w.anyOf, ColumnOf, p) by {
        forall p | ProductFilter(tenantId, q, p) ensures AnyHolds(w.anyOf, ColumnOf, p) {
          var conds := w.anyOf.value;
          if ColumnContains(p.title, text) {
            assert ColumnContains(ColumnOf(p, conds[0].field), conds[0].text);
          } else if ColumnContains(p.vendor, text) {
            assert ColumnContains(ColumnOf(p, conds[1].field), conds[1].text);
          } else {
            assert ColumnContains(ColumnOf(p, conds[2].field), conds[2].text);
          }
        }
      }
    }
    if Given(q.status) {
      w := w.(status := q.status);
    }
  }

  /** `orderBy: { createdAt: 'desc' }`: the row stored later (larger row id) comes first. */
  predicate StoredLater(a: Product, b: Product) {
    a.id > b.id
  }

  ghost predicate ProductsReply(s: Snapshot, w: ProductWhere, q: ProductQuery, reply: ListReply<Product>) {
    ListResponse(s.products.rows, (p: Product) => ProductMatches(w, p), StoredLater, q.paging, FetchProductsFailed, reply)
  }

  /**
   * The list route: it fails exactly on a bad page window; otherwise every listed product is a
   * stored product of the tenant the search and status ask for, most recently stored first, and
   * `total` counts all of them.
   */
  lemma ProductsListing(s: Snapshot, tenantId: TenantId, q: ProductQuery, w: ProductWhere, reply: ListReply<Product>)
    requires forall p :: ProductMatches(w, p) <==> ProductFilter(tenantId, q, p)
    requires ProductsReply(s, w, q, reply)
    ensures reply.ListFailed? <==> Paging(q.paging).None?
    ensures reply.Listed? ==>
              && |reply.rows| <= Abs(reply.limit)
              && (forall i :: 0 <= i < |reply.rows| ==>
                    ProductFilter(tenantId, q, reply.rows[i]) && reply.rows[i] in s.products.rows.Values)
              && (forall i, j :: 0 <= i < j < |reply.rows| ==> reply.rows[i].id >= reply.rows[j].id)
              && reply.total == |set k | k in s.products.rows && ProductFilter(tenantId, q, s.products.rows[k])|
  {
    var matches := (p: Product) => ProductMatches(w, p);
    ListResponseSound(s.products.rows, matches, StoredLater, q.paging, FetchProductsFailed, reply);
    assert Matching(s.products.rows, matches) == set k | k in s.products.rows && ProductFilter(tenantId, q, s.products.rows[k]);
  }

  /** A product with no status is never listed under a status filter. */
  lemma StatusFilterDropsNull(tenantId: TenantId, q: ProductQuery, p: Product)
    requires Given(q.status) && p.status.None?
    ensures !ProductFilter(tenantId, q, p)
  {
  }

  // ---- One product ----

  /** One product by row id, only among the tenant's products; 404 when there is none. */
  ghost function GetProduct(s: Snapshot, tenantId: TenantId, id: RowId): (r: Lookup<Product>)
    ensures r.Found? <==> exists k :: k in s.products.rows && s.products.rows[k].id == id && s.products.rows[k].tenantId == tenantId
    ensures r.Found? ==> r.row in s.products.rows.Values && r.row.id == id && r.row.tenantId == tenantId
    ensures r.Missing? ==> r == Missing(404, ProductNotFound)
  {
    match FindFirst(s.products.rows, (p: Product) => p.id == id && p.tenantId == tenantId)
    case None => Missing(404, ProductNotFound)
    case Some(p) => Found(p)
  }
}
