# Shopify sync and analytics back end, modelled in Dafny

This project models the core of a multi-tenant Shopify analytics service:

- **Pull sync** (`SyncService`). It fetches the customers, draft orders and products of one store, page by page, from the Shopify Admin API. It upserts them into the store's tables under their natural key (the external id and the tenant), replaces each order's line items, and recomputes every customer's totals from the orders table. It records each run in a sync-log row, and a full sync combines three independent sub-syncs into a summary.
- **Shopify client** (`ShopifyService`). It normalises the store URL, builds the endpoint query strings with their defaults, and walks the `Link` header's `rel="next"` pages.
- **Webhooks**. These are the HMAC guard, the tenant lookup by shop domain, the customer, order and product upserts, and the custom-event endpoint.
- **Read routes**. These list and look up orders, customers and products with page, limit, search, status and date filters, plus the analytics routes: the overview, orders by date, top customers, revenue by status, products by status, fulfilment statistics and monthly trends.
- **Pager**. This is the `Pagination` component of the dashboard tables.

The database is a value (`Database.Snapshot`) held by a `Database.Store` object whose fields the sync and webhook methods update in place. Each keyed table is a map from the natural key to the row, with a row-id counter. An `upsert` is one step on that map (`Upsert.Step`), and a loop of upserts is `Upsert.UpsertAll`.

Things the store decides on its own are specified relationally, not chosen by the model. These are the order of rows with equal sort keys and the order of `groupBy` groups. A reply is sound when some arrangement of the selected rows, sorted as the route asks, yields it (`Listing.ListedPage`, `Listing.ListedAll`, `Analytics.GroupedBy`).

Representation choices:

- Money is integer cents, and a parsed amount that is absent or `NaN` is `None`.
- A timestamp is its `toISOString()` text, so date comparison is lexicographic order on that text.
- Ordering by `createdAt` is ordering by row id, since ids increase as rows are stored.
- The network is a page oracle `Shopify.Api` with a page budget (`fuel`).
- Store failures are an optional `StoreFault`: the store throws on one write of one fetched record (`WriteFault`), or on a write after the last record (`LateFault`): in the customer-statistics pass of `syncOrders` or at the `completed` log write.
- The clock is the `since` parameter of the overview.

Modules, in dependency order:

- `Wrappers`
- `Text` (strings, `String(n)`, `split`, `replace`, ASCII case folding, lexicographic order)
- `Records` (API records and table rows)
- `Upsert`
- `LinkHeader`
- `Shopify`
- `Database`
- `Sync` (in `sync_service.dfy`) and `SyncProperties`
- `Webhooks`
- `Listing` (paging, `findMany`, `count`, `findFirst` and list replies shared by the routes)
- `OrdersRoute`, `CustomersRoute`, `ProductsRoute`
- `Charts` (the two time-series routes)
- `Analytics`
- `DataTable`

## Model

| member | source | states |
|---|---|---|
| Text.NatToString | backend/services/sync.js:46 | `String(id)` is a non-empty run of decimal digits |
| Text.NatToStringInjective | backend/services/sync.js:45-48 | distinct ids give distinct `String(id)` texts, so natural keys of distinct records never collide |
| Text.FirstIndexOf | backend/routes/analytics.js:95 | the position of the first occurrence of a character, with no earlier occurrence, or the length when absent |
| Text.FindFrom | backend/services/shopify.js:5 | the first position at or after `from` where a pattern occurs, and none before it; `None` only when it occurs nowhere after `from` |
| Text.ReplaceFirstAbsent | backend/services/shopify.js:5 | `replace` with a string pattern that does not occur leaves the text unchanged |
| Text.ReplaceFirstAtStart | backend/services/shopify.js:5 | `replace` of a pattern that starts the text replaces that prefix |
| Text.StripTrailingSlash | backend/services/shopify.js:5 | dropping a trailing slash never lengthens the text |
| Text.Split | backend/services/shopify.js:43 | `split(c)` gives at least one part, no part holds `c`, and joining the parts with `c` gives the text back |
| Text.FirstLabel | backend/routes/webhooks.js:49 | `split('.')[0]` is a prefix of the domain without a dot |
| Text.Lower | backend/routes/customers.js:20-22 | case folding keeps the length |
| Text.LowerFolds | backend/routes/customers.js:20-22 | case folding turns each ASCII capital into its small letter, keeps every other character, and leaves no capital |
| Text.LexLeReflexive | backend/routes/orders.js:25-26 | every timestamp is at or after and at or before itself |
| Text.LexLeTotal | backend/routes/orders.js:32 | any two timestamps are ordered one way or the other |
| Text.LexLeTransitive | backend/routes/orders.js:32 | timestamp order is transitive |
| Text.LexLeAntisymmetric | backend/routes/orders.js:32 | two timestamps ordered both ways are equal |
| Text.Take | backend/routes/analytics.js:229 | `slice(0, n)` is a prefix of at most `n` characters |
| Text.LexLeTake | backend/routes/analytics.js:229 | cutting two ordered timestamps at the same length keeps them ordered |
| Records.OrNull | backend/services/sync.js:51 | `x \|\| null` keeps a non-empty string and never yields an empty one |
| Records.NumberOr | backend/services/sync.js:55 | `x \|\| d` keeps a non-zero number and otherwise gives `d` |
| Records.IdText | backend/services/sync.js:194-196 | `x ? String(x) : null` gives text exactly for a present non-zero id |
| Records.DraftKeyDisjoint | backend/services/sync.js:144 | a `draft_` key never equals the key of a plain order id |
| Records.NaturalKeyInjective | backend/services/sync.js:45-48 | equal natural keys come from the same id and the same tenant |
| Upsert.Step | backend/services/sync.js:43-77 | one upsert adds exactly the record's key, leaves every other row, and uses a new row id only when the key was absent |
| Upsert.Latest | backend/services/sync.js:42 | the last record of the list under a key, or `None` when no record has that key |
| Upsert.UpsertAllSnoc | backend/services/sync.js:43-77 | one more turn of an upsert loop is one more upsert on the table so far |
| Upsert.UpsertAll | backend/services/sync.js:42-79 | no contract of its own: the upsert loop over a record list, in list order; `UpsertAllSnoc`, `UpsertAllKeys`, `UpsertAllOnPresentKeys`, `UpsertAllSettles`, `UpsertAllIdempotent` and `UpsertAllKeyed` state its properties |
| Upsert.UpsertAllKeys | backend/services/sync.js:42-79 | after the loop every record's key is a row, no key disappears, and every new key comes from a record |
| Upsert.UpsertAllOnPresentKeys | backend/services/sync.js:42-79 | on rows that already exist the loop only updates, and each row gets its latest record |
| Upsert.LatestUpdateCollapses | backend/services/sync.js:50-61 | with last-write-wins updates, a row updated twice equals the row updated with the second record alone |
| Upsert.UpsertAllSettles | backend/services/sync.js:42-79 | after the loop each row is a fixed point of the update with its latest record |
| Upsert.UpsertAllIdempotent | backend/services/sync.js:42-79 | running the same upserts again leaves rows and row-id counter unchanged: no duplicate row can appear |
| Upsert.StepKeyed | backend/services/sync.js:43-49 | an upsert keeps every row under the key its own columns spell |
| Upsert.UpsertAllKeyed | backend/services/sync.js:42-79 | a whole loop of upserts keeps the table keyed |
| LinkHeader.SkipSpaces | backend/services/shopify.js:45 | greedy `\s*`: the end of the white-space run starting at `k` |
| LinkHeader.MatchAt | backend/services/shopify.js:45 | the pattern anchored at one position captures a non-empty, `>`-free URL |
| LinkHeader.MatchFrom | backend/services/shopify.js:45 | the leftmost match at or after a position captures a non-empty, `>`-free URL |
| LinkHeader.MatchSegment | backend/services/shopify.js:45 | `link.match(...)` on one segment captures a non-empty, `>`-free URL |
| LinkHeader.FirstMatch | backend/services/shopify.js:44-49 | the capture of the first matching segment |
| LinkHeader.NextLink | backend/services/shopify.js:40-51 | an absent header gives no next URL, and a URL found is non-empty and `>`-free |
| LinkHeader.MatchFromFinds | backend/services/shopify.js:45 | the search succeeds exactly when the anchored pattern matches at some position |
| LinkHeader.MatchFromInside | backend/services/shopify.js:45 | a capture holds no character that is absent from the segment |
| LinkHeader.FirstMatchSpec | backend/services/shopify.js:44-49 | the result is the capture of some segment after only non-matching segments, and `None` means no segment matches |
| LinkHeader.NextLinkHasNoComma | backend/services/shopify.js:43-47 | a next-page URL never holds a comma |
| LinkHeader.GetNextPageUrl | backend/services/shopify.js:40-51 | the loop over the split header returns exactly `NextLink` |
| LinkHeader.FirstMatchIsFirst | backend/services/shopify.js:44-49 | the first matching segment decides the result |
| LinkHeader.SegmentDelimiters | backend/services/shopify.js:45 | the delimiters `<`, `>;`, `rel="` and `"` sit at fixed offsets of a rendered link-value |
| LinkHeader.SegmentParts | backend/services/shopify.js:45 | each part of a rendered segment sits at its offset |
| LinkHeader.SkipSpacesTo | backend/services/shopify.js:45 | `\s*` stops at the first non-space character |
| LinkHeader.MatchAtWhen | backend/services/shopify.js:45 | once the `>` and the end of the white space are known, the anchored match succeeds exactly when `rel="next"` follows |
| LinkHeader.MatchAtLayout | backend/services/shopify.js:45 | on a laid-out link-value the anchored match succeeds exactly for relation `next`, capturing the URL |
| LinkHeader.MatchAtDelimiters | backend/services/shopify.js:45 | the anchored match decided by the text after the white space |
| LinkHeader.RelOccurs | backend/services/shopify.js:45 | `rel="X"` reads `rel="next"` exactly when `X` is `next` |
| LinkHeader.MatchAtLinkValue | backend/services/shopify.js:45 | at a rendered link-value the pattern captures the URL exactly when the relation is `next` |
| LinkHeader.MatchAtPlaced | backend/services/shopify.js:45 | the same for any text laid out as a link-value |
| LinkHeader.RelDiffers | backend/services/shopify.js:45 | a relation other than `next` differs from `next"` within five characters |
| LinkHeader.MatchFromLeftmost | backend/services/shopify.js:45 | the search returns the first matching position |
| LinkHeader.MatchFromHit | backend/services/shopify.js:45 | the search stops at a matching position |
| LinkHeader.MatchFromSkip | backend/services/shopify.js:45 | a non-matching position passes the search on |
| LinkHeader.RenderNextParses | backend/services/shopify.js:45-47 | round trip: a segment holding a rendered `next` link-value yields exactly its URL |
| LinkHeader.OnlyOneAngle | backend/services/shopify.js:45 | a segment built from `<`-free parts holds one `<` only |
| LinkHeader.OtherRelDoesNotMatch | backend/services/shopify.js:45 | a segment whose link-value has another relation (such as `previous`) does not match |
| LinkHeader.SplitTwo | backend/services/shopify.js:43 | splitting two comma-free parts joined by a comma gives the two parts |
| LinkHeader.CommaFreeLinkValue | backend/services/shopify.js:43 | a link-value of comma-free parts holds no comma |
| LinkHeader.PreviousThenNext | backend/services/shopify.js:40-51 | on the header of a middle page (`previous`, then `next`) the `next` URL is returned |
| Shopify.NewClient | backend/services/shopify.js:4-9 | the client keeps the token and version, and its base URL is `https://` + normalised store + `/admin/api/` + version |
| Shopify.NormalizeStoreUrl | backend/services/shopify.js:5 | no contract of its own: the first `https://` and `http://` are removed, then one trailing slash; `Shopify.NormalizeBareHost` states that a bare host written with or without a scheme and a trailing slash comes back as itself |
| Shopify.NoColonNoOccurrence | backend/services/shopify.js:5 | a scheme pattern never occurs in colon-free text |
| Shopify.StripHostSlash | backend/services/shopify.js:5 | only the one trailing slash is dropped from a host |
| Shopify.NormalizeBareHost | backend/services/shopify.js:5 | a host written with no scheme, `http://` or `https://`, with or without a trailing slash, normalises to the host |
| Shopify.HttpsAbsentAfterHttp | backend/services/shopify.js:5 | `https://` is not found in `http://` followed by a colon-free host |
| Shopify.SetAt | backend/services/shopify.js:62 | assigning an existing key keeps order and length and changes that key's value only |
| Shopify.Put | backend/services/shopify.js:62 | assigning a property sets its value, keeps the others, and keeps existing keys in place |
| Shopify.Spread | backend/services/shopify.js:62 | `{ ...defaults, ...params }`: the caller's value wins, otherwise the default, and the defaults' keys keep their place |
| Shopify.QueryString | backend/services/shopify.js:55 | the query string is empty exactly when there are no parameters |
| Shopify.CustomersEndpoint | backend/services/shopify.js:54-58 | without parameters `customers.json?limit=250`, otherwise exactly the caller's query |
| Shopify.OrdersDefaults | backend/services/shopify.js:61-66 | `status` and `limit` come first, default to `any` and `250`, and are overridden by the caller; other keys are the caller's |
| Shopify.PageSizeDefault | backend/services/shopify.js:69-80 | draft orders and products: `limit` comes first and defaults to `250`; other keys are the caller's |
| Shopify.DefaultEndpoints | backend/services/shopify.js:61-80 | the default endpoints are `orders.json?status=any&limit=250`, `draft_orders.json?limit=250` and `products.json?limit=250` |
| Shopify.PrependPrepend | backend/services/shopify.js:26 | concatenating page records is associative |
| Shopify.FetchAllPages | backend/services/shopify.js:18-38 | the loop follows next links from the endpoint URL, concatenating records; the first failure is the result |
| Shopify.FetchFuelMonotone | backend/services/shopify.js:22-35 | a walk that ends within its budget has the same outcome with any larger budget |
| Shopify.FailurePropagates | backend/services/shopify.js:31-34 | a failed walk fails with the error of one of its page requests, unchanged |
| Database.Store.constructor | backend/services/sync.js:1 | an empty store for the given tenants, keyed |
| Database.PartlyReplaced | backend/services/sync.js:186-206 | the items after the first writes of an item replacement: unchanged before the `deleteMany`, then the other orders' items and one new item per `create` made; all writes give the full replacement |
| Database.Store.ReplaceItems | backend/services/sync.js:186-206 | `deleteMany` of the order's items followed by one `create` per line item, in order, up to the write that throws |
| Database.NewItem | backend/services/sync.js:192-204 | the item points at its order; quantity defaults to 1 and is never 0; price defaults to 0; ids become text only when truthy |
| Database.NewItems | backend/services/sync.js:191-205 | one item per line item, in source order |
| Database.ItemsOf | backend/routes/orders.js:74 | the items of one order, a sub-list of the table |
| Database.RemoveItemsOf | backend/services/sync.js:187-189 | after `deleteMany` no item of that order remains |
| Database.ItemsOfAppend | backend/services/sync.js:191-205 | the items of an order in a concatenation are its items in each part |
| Database.ItemsOfRemoved | backend/services/sync.js:187-189 | after `deleteMany` the removed order has no items and every other order keeps its own |
| Database.ItemsOfUniform | backend/services/sync.js:202 | items created for one order belong to that order only |
| Database.ItemsReplaced | backend/services/sync.js:186-206 | replacing an order's items leaves exactly the new items under it, in order, and other orders' items as they were |
| Sync.NewCustomer | backend/services/sync.js:62-76 | the created customer: its key, counts defaulting to 0, marketing flag only when `true`, no empty e-mail |
| Sync.UpdatedCustomer | backend/services/sync.js:50-61 | the update keeps key, row id and creation date, and resets absent counts to 0 |
| Sync.NewNestedCustomer | backend/services/sync.js:124-135 | a customer created from a draft order starts with zero totals and no marketing consent |
| Sync.UpdatedNestedCustomer | backend/services/sync.js:115-123 | the nested update never touches the totals or the marketing flag |
| Sync.NewDraftOrder | backend/services/sync.js:164-182 | a created draft: key `draft_<id>`, status `draft`, no fulfilment, no discount, bound to the customer references |
| Sync.UpdatedDraftOrder | backend/services/sync.js:148-163 | a draft update keeps id, key and dates, and rewrites the draft columns and customer references |
| Sync.FirstVariant | backend/services/sync.js:231 | `variants?.[0]` exists exactly for a non-empty variant list |
| Sync.FirstImageSrc | backend/services/sync.js:232 | `images?.[0]` exists exactly for a non-empty image list |
| Sync.NewProduct | backend/services/sync.js:257-275 | a created product: its key, and no price or stock without a first variant and no image without a first image |
| Sync.VariantPrice | backend/services/sync.js:250 | with no first variant the price is null; otherwise it is the variant's price (see `## Left out` for truthiness) |
| Sync.VariantCompareAtPrice | backend/services/sync.js:251-253 | with no first variant the compare-at price is null; otherwise it is the variant's |
| Sync.VariantInventory | backend/services/sync.js:254 | `|| 0`: the stock is the variant's non-zero quantity, and 0 when there is no first variant or no quantity |
| Sync.UpdatedProduct | backend/services/sync.js:241-256 | the update keeps key, id and creation date, keeps the stored image URL when there is no first image, and clears prices without a variant |
| Sync.DraftPrefix | backend/services/sync.js:99-206 | the first writes of one draft touch neither products nor logs; none changes nothing; the order row is stored once its upsert is made, and orders and items are untouched before it |
| Sync.DraftCustomerWrite | backend/services/sync.js:103-137 | a draft with a customer id upserts that customer and touches nothing else; one without changes nothing |
| Sync.DraftBinding | backend/services/sync.js:100-137 | the draft references its customer by external id and by the row id the upsert left, or nobody |
| Sync.DraftOrderWrite | backend/services/sync.js:140-183 | the order upsert stores the draft's row and touches no other table |
| Sync.ReconcileDraft | backend/services/sync.js:98-209 | one draft order touches neither products nor logs, and leaves its order row stored |
| Sync.ReconcileDrafts | backend/services/sync.js:98-209 | the draft loop touches neither products nor logs |
| Sync.ReconcileDraftsNext | backend/services/sync.js:98 | the loop over `i + 1` drafts is the loop over `i` followed by draft `i` |
| Sync.SpentOverRemove | backend/services/sync.js:301 | the `_sum` over a set is one order's price plus the sum over the rest |
| Sync.RefreshingStep | backend/services/sync.js:295-312 | each turn of the statistics loop refreshes exactly one customer that the pass does not skip |
| Sync.Refreshing | backend/services/sync.js:295-312 | no contract of its own: the customer table after the statistics pass, each reached customer of the tenant refreshed from its orders; `Sync.RefreshingStep` ties it to one turn of the loop and `SyncProperties.StatisticsMatchOrders` states what the refreshed rows hold |
| Sync.Aggregate | backend/services/sync.js:296-303 | `aggregate` returns the summed `totalPrice` and the count of the tenant's orders naming the customer |
| Sync.Written | backend/services/sync.js:42-79 | the records fully written before the store fails: a prefix of the fetched list, as long as the index of the failing record, all of it when no record write fails, none if the fetch failed |
| Sync.ThrowPoint | backend/services/sync.js:98-209 | the failing write is one of the draft's own writes |
| Sync.DraftLoop | backend/services/sync.js:98-209 | the draft loop, up to the write that throws, touches neither products nor logs |
| Sync.CloseLast | backend/services/sync.js:22-32 | updating the just-appended log row is appending the closed row |
| Sync.OrdersRun | backend/services/sync.js:90-220 | `syncOrders` reports the outcome of the fetch, the draft writes and the statistics pass, appends its closed log row, and leaves products alone |
| Sync.ReadableError | backend/services/sync.js:383-391 | 403 names the scope, 401 names the token, otherwise the message or `Unknown error`; never empty |
| Sync.Summarize | backend/services/sync.js:361-379 | success iff some sub-sync succeeded; partial iff success with errors; counts of the successes; errors in customers, orders, products order |
| Sync.FullLog | backend/services/sync.js:364-369 | the full-sync row is failed iff nothing succeeded (partial is logged completed), records the total, and has a message iff there were errors |
| Sync.SummaryOfRecords | backend/services/sync.js:320-379 | the running total and error list that `syncAll` accumulates give `Summarize`'s summary |
| Sync.SyncService.constructor | backend/services/sync.js:5-8 | the service keeps its tenant and store and builds the client from the tenant's URL and token |
| Sync.SyncService.CreateSyncLog | backend/services/sync.js:11-19 | appends a `started` row for the tenant and returns its id |
| Sync.SyncService.UpdateSyncLog | backend/services/sync.js:22-32 | rewrites status, count and message of that row only |
| Sync.SyncService.UpsertCustomers | backend/services/sync.js:42-79 | the customer table is the fold of upserts over the records written, and the count is their number |
| Sync.SyncService.WriteCustomers | backend/services/sync.js:39-86 | the fetched branch of `syncCustomers` leaves exactly `CustomersRun`'s store and outcome |
| Sync.SyncService.SyncCustomers | backend/services/sync.js:35-87 | `syncCustomers` leaves exactly `CustomersRun`'s store and outcome for the fetched walk |
| Sync.CustomersRun | backend/services/sync.js:35-87 | no contract of its own: the store and outcome `syncCustomers` leaves for a fetched walk and a store fault; `SyncProperties.CustomersRunFrame`, `CustomersRunIdempotent` and `CustomersRunKeyed` state its properties |
| Sync.SyncService.SyncDraft | backend/services/sync.js:99-206 | one loop body, or its writes before the one that throws, leaves exactly `DraftPrefix`'s tables |
| Sync.SyncService.UpsertDraftCustomer | backend/services/sync.js:103-137 | the nested customer upsert leaves exactly `DraftCustomerWrite`'s tables |
| Sync.SyncService.UpsertDraftOrder | backend/services/sync.js:140-183 | the draft's order upsert leaves exactly `DraftOrderWrite`'s tables |
| Sync.SyncService.ReplaceDraftItems | backend/services/sync.js:185-206 | the item writes of a stored draft, up to the one that throws, leave exactly `PartlyReplaced`'s items |
| Sync.SyncService.SyncNextDraft | backend/services/sync.js:98-209 | one more turn of the draft loop |
| Sync.SyncService.SyncDrafts | backend/services/sync.js:98-209 | the draft loop leaves exactly `DraftLoop`'s tables (whole drafts before the fault, the failing draft's earlier writes), and counts the whole drafts |
| Sync.SyncService.WriteOrders | backend/services/sync.js:94-219 | the fetched branch of `syncOrders` leaves exactly `OrdersRun`'s store and outcome |
| Sync.SyncService.SyncOrders | backend/services/sync.js:90-220 | `syncOrders` leaves exactly `OrdersRun`'s store and outcome for the fetched walk |
| Sync.SyncService.UpsertProducts | backend/services/sync.js:230-278 | the product table is the fold of upserts over the records written, and the count is their number |
| Sync.SyncService.WriteProducts | backend/services/sync.js:227-285 | the fetched branch of `syncProducts` leaves exactly `ProductsRun`'s store and outcome |
| Sync.SyncService.SyncProducts | backend/services/sync.js:223-286 | `syncProducts` leaves exactly `ProductsRun`'s store and outcome for the fetched walk |
| Sync.ProductsRun | backend/services/sync.js:223-286 | no contract of its own: the store and outcome `syncProducts` leaves for a fetched walk and a store fault; `SyncProperties.ProductsRunFrame` and `ProductsRunKeyed` state its properties |
| Sync.SyncService.UpdateCustomerStatistics | backend/services/sync.js:289-315 | every customer of the tenant that the pass reaches gets the sum and count of its orders; the rest and the counter stay |
| Sync.SyncService.Conclude | backend/services/sync.js:361-379 | returns `Summarize` and closes the full-sync row with `FullLog` |
| Sync.SyncService.SyncAll | backend/services/sync.js:318-380 | `syncAll` leaves exactly `FullRun`'s store and summary |
| Sync.FullRun | backend/services/sync.js:318-380 | no contract of its own: the three sub-syncs in order under the full-sync log row; `SyncProperties.FullRunSummary`, `FullRunLogs` and `FullRunHangs` state its properties |
| SyncProperties.CustomerUpdateOverwrites | backend/services/sync.js:50-61 | a second customer update equals the last one alone |
| SyncProperties.CustomerCreateAgrees | backend/services/sync.js:50-76 | updating a created customer with its own record changes nothing |
| SyncProperties.CustomersRunIdempotent | backend/services/sync.js:35-87 | running `syncCustomers` twice on the same list leaves the customer table as the first run left it |
| SyncProperties.CustomerKeysKept | backend/services/sync.js:45-48 | the customer mapping writes the record's key and never changes it |
| SyncProperties.CustomersRunKeyed | backend/services/sync.js:43-77 | after `syncCustomers` every customer row is under its own key |
| SyncProperties.CustomersRunFrame | backend/services/sync.js:35-87 | `syncCustomers` writes only customers and its own log row; a failed fetch writes no customer |
| SyncProperties.ProductKeysKept | backend/services/sync.js:235-240 | the product mapping writes the record's key and never changes it |
| SyncProperties.ProductsRunKeyed | backend/services/sync.js:234-276 | after `syncProducts` every product row is under its own key |
| SyncProperties.ProductsRunFrame | backend/services/sync.js:223-286 | `syncProducts` writes only products and its own log row; a failed fetch writes no product |
| SyncProperties.OrdersRunLog | backend/services/sync.js:90-220 | `syncOrders` appends exactly its own closed log row |
| SyncProperties.RunLogClosed | backend/services/sync.js:81-85 | the log row is completed with the record count; failed with the message and the number of records written before a failing record, or all of them when the error comes after the last record; or left started when the walk never ends |
| SyncProperties.DraftStored | backend/services/sync.js:141-183 | a draft lands under `draft_<id>` with the draft columns; no other order changes; new rows get the next id; updates keep id and creation date |
| SyncProperties.DraftCustomerBound | backend/services/sync.js:100-138 | a draft with a customer id upserts it and references it by external id and row id; one without references nobody |
| SyncProperties.NestedCustomerKeepsTotals | backend/services/sync.js:108-136 | the nested upsert keeps totals and marketing flag of an existing customer; a new one starts at zero; other customers stay |
| SyncProperties.DraftItemsReplaced | backend/services/sync.js:186-206 | a non-empty list becomes exactly the order's items and other orders keep theirs; an empty or absent list changes no item |
| SyncProperties.DraftPartlyWritten | backend/services/sync.js:103-206 | a draft interrupted at its `n`-th write keeps the writes before it: the customer upsert, then the order upsert as in the full reconciliation, then the `deleteMany` and one item per `create` made, other orders' items untouched |
| SyncProperties.DraftKeysKept | backend/services/sync.js:142-147 | the draft-order mapping writes the `draft_` key and never changes it |
| SyncProperties.NestedCustomerKeysKept | backend/services/sync.js:109-114 | the nested customer mapping writes the key and never changes it |
| SyncProperties.DraftKeyed | backend/services/sync.js:99-208 | one draft keeps customers and orders keyed |
| SyncProperties.DraftsKeyed | backend/services/sync.js:98-209 | the draft loop keeps customers and orders keyed |
| SyncProperties.DraftPrefixKeyed | backend/services/sync.js:103-183 | the writes of a draft before a failing one keep customers and orders keyed |
| SyncProperties.StatisticsKeyed | backend/services/sync.js:305-311 | recomputing the totals of any set of customers keeps customers keyed |
| SyncProperties.OrdersRunKeyed | backend/services/sync.js:90-220 | after `syncOrders`, whatever write threw, customers and orders are keyed |
| SyncProperties.StatisticsMatchOrders | backend/services/sync.js:211-214 | once every draft is written, each of the tenant's customers the statistics pass reached carries the sum and count of its orders in the final orders table; customers not reached before a late fault, and other tenants', are as the drafts left them |
| SyncProperties.DraftPrefixKeepsTotals | backend/services/sync.js:103-206 | the writes of one draft, all or some, keep every customer's totals; a customer they create has zero |
| SyncProperties.DraftsKeepTotals | backend/services/sync.js:98-209 | the whole draft loop keeps every customer's totals; customers it creates have zero |
| SyncProperties.NoStatisticsOnFailure | backend/services/sync.js:98-218 | when the fetch or a draft write throws, the statistics pass never runs: every existing customer keeps its totals and every new one has zero |
| SyncProperties.SpentOverAdd | backend/services/sync.js:301 | the sum grows by an order's price when the order joins the set |
| SyncProperties.NoOrdersNoTotals | backend/services/sync.js:308-309 | a customer no order names gets zero totals |
| SyncProperties.CloseFirstOfFour | backend/services/sync.js:364-369 | closing the full-sync row after three sub-sync rows |
| SyncProperties.FullRunSummary | backend/services/sync.js:318-380 | `syncAll` returns `Summarize` of the three outcomes: success iff one succeeded, total the sum of the successes |
| SyncProperties.FullRunLogs | backend/services/sync.js:318-380 | `syncAll` leaves its own row and the three sub-sync rows; its row is failed iff all three threw |
| SyncProperties.FullRunHangs | backend/services/sync.js:22-35 | a page walk that never ends leaves no summary and the full-sync row started |
| SyncProperties.ProductsCountDespiteFailures | backend/services/sync.js:350-361 | whatever the first two sub-syncs did, a products run that wrote everything makes the full sync succeed with its count |
| Webhooks.VerifyWebhook | backend/routes/webhooks.js:9-34 | 401 `Unauthorized` exactly when the HMAC header is missing or empty or the raw body is missing; otherwise the request passes in either environment |
| Webhooks.SignatureNeverCompared | backend/routes/webhooks.js:17-33 | any two non-empty HMAC values pass alike: the signature is not checked |
| Webhooks.FirstMatching | backend/routes/webhooks.js:44-52 | `findFirst` returns the first tenant that matches one of the three alternatives, and `None` only when none matches |
| Webhooks.MatchIsByFirstLabel | backend/routes/webhooks.js:46-50 | a tenant matches exactly when its store URL contains the domain's first label |
| Webhooks.TenantMatches | backend/routes/webhooks.js:46-50 | no contract of its own: the three alternatives of the tenant query; `Webhooks.MatchIsByFirstLabel` shows they reduce to the first-label containment, and `Webhooks.EmptyLabelMatchesEveryTenant` that an empty first label matches every tenant |
| Webhooks.EmptyLabelMatchesEveryTenant | backend/routes/webhooks.js:49 | an empty first label matches every tenant |
| Webhooks.OtherShopCanMatchFirst | backend/routes/webhooks.js:49 | `a.myshopify.com` resolves to a tenant stored as `banana.myshopify.com` listed first |
| Webhooks.Route | backend/routes/webhooks.js:56-64 | guard, then lookup: 401, 500 for a missing shop domain, 404 when no tenant matches, otherwise the first matching tenant |
| Webhooks.HookNewCustomer | backend/routes/webhooks.js:82-92 | the webhook-created customer has no currency, tags, marketing flag or update date |
| Webhooks.DateOf | backend/routes/webhooks.js:80 | no contract of its own: `new Date(x)` of a JSON timestamp, `null` being the epoch; the missing-key case is under `## Left out` |
| Webhooks.HookUpdatedCustomer | backend/routes/webhooks.js:73-81 | the webhook update keeps currency, tags and marketing flag |
| Webhooks.CustomerLink | backend/routes/webhooks.js:113-125 | no customer id gives `null`; a stored customer gives its row id; a missing one gives `undefined` |
| Webhooks.HookNewOrder | backend/routes/webhooks.js:147-163 | a created webhook order is not a draft, under the plain id, with `customerShopifyId` from the payload and the looked-up `customerId` |
| Webhooks.HookUpdatedOrder | backend/routes/webhooks.js:134-146 | the update keeps `customerShopifyId`, draft columns, creation and processing dates; `undefined` keeps `customerId` |
| Webhooks.HookNewProduct | backend/routes/webhooks.js:230-244 | the webhook-created product has no compare-at price or update date |
| Webhooks.HookUpdatedProduct | backend/routes/webhooks.js:217-229 | the update never writes the compare-at price and keeps the stored image URL when there is no first image |
| Webhooks.UpsertHookOrder | backend/routes/webhooks.js:127-164 | the order is stored under its plain id |
| Webhooks.RefusedWritesNothing | backend/routes/webhooks.js:56-64 | a refused delivery answers 401, 404 or 500 and writes nothing |
| Webhooks.OrderHookLeavesDrafts | backend/routes/webhooks.js:127-133 | a webhook order changes only its own key; draft rows, customers, products and logs stay |
| Webhooks.UpsertHookOrderRefs | backend/routes/webhooks.js:114-164 | the customer references one order upsert leaves |
| Webhooks.OrderHookCustomerRefs | backend/routes/webhooks.js:113-164 | `customerShopifyId` is written on create only; `customerId` is bound, cleared, or left when the customer is not stored |
| Webhooks.OrderHookItems | backend/routes/webhooks.js:166-187 | a non-empty list becomes exactly the order's items and other orders keep theirs; otherwise no item changes |
| Webhooks.CustomerHook | backend/routes/webhooks.js:56-100 | no contract of its own: route, then upsert the customer; `Webhooks.RefusedWritesNothing`, `HooksKeepKeys`, `CustomerRedelivery` and `CustomerDeliveryStores` state its properties |
| Webhooks.ApplyHookOrder | backend/routes/webhooks.js:113-187 | no contract of its own: the order upsert, then the item replacement for a non-empty list; `Webhooks.OrderHookLeavesDrafts`, `OrderHookCustomerRefs` and `OrderHookItems` state its properties |
| Webhooks.OrderHook | backend/routes/webhooks.js:103-194 | no contract of its own: route, then `ApplyHookOrder`; `Webhooks.RefusedWritesNothing`, `OrderHookLeavesDrafts`, `OrderHookItems` and `HooksKeepKeys` state its properties |
| Webhooks.ProductHook | backend/routes/webhooks.js:197-252 | no contract of its own: route, then upsert the product; `Webhooks.RefusedWritesNothing` and `HooksKeepKeys` state its properties |
| Webhooks.HooksKeepKeys | backend/routes/webhooks.js:66-245 | every handler keeps its table keyed |
| Webhooks.CustomerRedelivery | backend/routes/webhooks.js:56-100 | re-delivering a customer whose row exists changes nothing |
| Webhooks.CustomerDeliveryStores | backend/routes/webhooks.js:66-95 | an accepted delivery answers 200 and leaves the customer row stored |
| Webhooks.CustomerMappingsDiffer | backend/routes/webhooks.js:73-92 | an empty e-mail is stored by the webhook but nulled by the sync, and a webhook update keeps the marketing flag the sync overwrites |
| Webhooks.EventGuard | backend/routes/webhooks.js:259-270 | 400 iff a required field is missing or empty; 404 iff they are present and no tenant has that id |
| Webhooks.WebhookRouter.constructor | backend/routes/webhooks.js:6 | the router keeps its store and environment |
| Webhooks.WebhookRouter.CustomersCreate | backend/routes/webhooks.js:56-100 | the handler's reply and tables are `CustomerHook`'s |
| Webhooks.WebhookRouter.WriteOrder | backend/routes/webhooks.js:113-187 | the writes for a resolved tenant are `ApplyHookOrder`'s |
| Webhooks.WebhookRouter.OrdersCreate | backend/routes/webhooks.js:103-194 | the handler's reply and tables are `OrderHook`'s |
| Webhooks.WebhookRouter.ProductsCreate | backend/routes/webhooks.js:197-252 | the handler's reply and tables are `ProductHook`'s |
| Webhooks.WebhookRouter.TrackEvent | backend/routes/webhooks.js:255-288 | exactly one event row with the body's fields when the guards pass (201), none otherwise |
| Listing.Paging | backend/routes/orders.js:14-15 | defaults page 1 and limit 20; `skip = (page - 1) * limit`, `take = limit`; fails iff a value is `NaN` or `skip` is negative |
| Listing.PagingDefaults | backend/routes/orders.js:14-15 | without parameters the window is `(0, 20)`, with a limit alone `(0, limit)` |
| Listing.ConsecutivePages | backend/routes/orders.js:15 | consecutive pages ask for adjacent windows; past page 1 a negative limit fails |
| Listing.TotalPages | backend/routes/orders.js:55 | `Math.ceil(total / limit)`: the least page count covering `total` for a positive limit, `null` for 0, non-positive for a negative limit |
| Listing.PagesCoverRows | backend/routes/orders.js:55 | a page is within `totalPages` iff its window starts inside the matching rows |
| Listing.RowsAt | backend/routes/orders.js:30-45 | the rows under an arrangement of keys, in that order |
| Listing.SliceBounds | backend/routes/orders.js:33-34 | `skip` then `take`: at most `\|take\|` positions; forward after the skipped rows, or backward from the end for a negative `take` |
| Listing.Slice | backend/routes/orders.js:33-34 | the rows at those positions, in order |
| Listing.DistinctCard | backend/routes/orders.js:46 | a list of distinct keys is as long as the set it spells |
| Listing.ArrangedCount | backend/routes/orders.js:29-47 | `count` on the same `where` equals the number of rows `findMany` arranges |
| Listing.ListedPageSound | backend/routes/orders.js:30-45 | a page holds the rows at `SliceBounds` of all the matches (at most `\|take\|`), every one selected and stored, none out of order |
| Listing.PageOfArrangement | backend/routes/orders.js:30-45 | the page one arrangement yields |
| Listing.SliceOfArranged | backend/routes/orders.js:30-45 | consecutive rows of an arrangement are selected, stored and in order |
| Listing.PagesPartition | backend/routes/orders.js:15 | row `i` of the arrangement is on page `i / limit + 1`, within `totalPages` |
| Listing.ListedAllSound | backend/routes/analytics.js:84-89 | `findMany` without paging returns every matching row once, in order |
| Listing.FindFirst | backend/routes/orders.js:67-76 | `findFirst`: a matching stored row, or `null` exactly when none matches |
| Listing.ListResponseSound | backend/routes/orders.js:29-61 | a list reply fails iff the window does; rows are selected and ordered, at most `\|limit\|`; a page within `totalPages` is non-empty |
| OrdersRoute.BuildOrderWhere | backend/routes/orders.js:17-27 | the built `where` selects exactly the orders the query asks for (status, inclusive date bounds), and is unusable iff a date is invalid |
| OrdersRoute.CustomerById | backend/routes/orders.js:35-43 | the included customer is the row whose id `customerId` names |
| OrdersRoute.OrdersListing | backend/routes/orders.js:11-62 | fails iff the window or a date is bad; otherwise the tenant's requested orders with their customer, newest first, and `total` counts them all |
| OrdersRoute.Newer | backend/routes/orders.js:32 | no contract of its own: `orderBy: { createdAtShopify: 'desc' }` as a strict order on dated rows; `OrdersRoute.OrdersListing` states that the listed orders are newest first |
| OrdersRoute.BoundsInclusive | backend/routes/orders.js:25-26 | an order created at a bound's instant is listed |
| OrdersRoute.RangeDropsUndated | backend/routes/orders.js:23-27 | a date range drops undated orders |
| OrdersRoute.ItemsOfExact | backend/routes/orders.js:74 | the included items are exactly the stored items of the order |
| OrdersRoute.GetOrder | backend/routes/orders.js:65-87 | found iff the tenant has the order; then with its customer and exactly its items; otherwise 404 `Order not found` |
| CustomersRoute.BuildCustomerWhere | backend/routes/customers.js:17-24 | the built `where` selects the tenant's customers whose e-mail, first or last name holds the search, ignoring case |
| CustomersRoute.CustomersListing | backend/routes/customers.js:11-49 | fails iff the window does; otherwise matching customers, latest stored first, and `total` counts them all |
| CustomersRoute.SearchIgnoresCase | backend/routes/customers.js:20-22 | a customer is found by the lower-cased text of its first name |
| CustomersRoute.SearchFoldsCase | backend/routes/customers.js:20-22 | two search texts that differ only in letter case select the same customers |
| CustomersRoute.LowerIdempotent | backend/routes/customers.js:20-22 | case folding twice is case folding once |
| CustomersRoute.CustomerDetailSound | backend/routes/customers.js:52-76 | found iff the tenant has the customer; then with its `min(n, 10)` newest orders; otherwise 404 |
| ProductsRoute.BuildProductWhere | backend/routes/products.js:17-29 | the built `where` selects the tenant's products whose title, vendor or type holds the search, with the given status |
| ProductsRoute.ProductsListing | backend/routes/products.js:11-54 | fails iff the window does; otherwise matching products, latest stored first, and `total` counts them all |
| ProductsRoute.StatusFilterDropsNull | backend/routes/products.js:27-29 | a product with no status is never listed under a status filter |
| ProductsRoute.GetProduct | backend/routes/products.js:57-75 | found iff the tenant has the product; otherwise 404 `Product not found` |
| Charts.PeriodOf | backend/routes/analytics.js:95 | the day key is the text before the first `T`; the month key is the first seven characters |
| Charts.BucketIndex | backend/routes/analytics.js:96 | the position of a period's bucket, or the number of buckets when it has none |
| Charts.GroupByPeriod | backend/routes/analytics.js:92-105 | the loop with its keyed object yields exactly `Tally` of the orders |
| Charts.Tally | backend/routes/analytics.js:92-105 | no contract of its own: the buckets the dated orders fold into, in order; `Charts.TallyCounts`, `TallyPeriods`, `TallyDistinct` and `TallyAscending` state its properties |
| Charts.CountOrder | backend/routes/analytics.js:96-101 | one turn: open the period's bucket at zero if new, then count the order |
| Charts.CountedIndex | backend/routes/analytics.js:96-101 | counting an order keeps every other period's bucket and puts its own at its old place or at the end |
| Charts.TallyCounts | backend/routes/analytics.js:92-105 | each bucket holds the number and summed revenue of the dated orders of its period; a period without a bucket has none |
| Charts.TallyPeriods | backend/routes/analytics.js:92-105 | every bucket is some dated order's period, and every dated order has a bucket |
| Charts.TallyDistinct | backend/routes/analytics.js:96-98 | no two buckets share a period |
| Charts.TallyAscending | backend/routes/analytics.js:88-105 | orders whose periods never go down give buckets in ascending order |
| Charts.DayIsDatePart | backend/routes/analytics.js:95 | the day of an ISO timestamp is its first ten characters |
| Charts.PeriodMonotone | backend/routes/analytics.js:95 | later timestamps never fall in an earlier month, nor (ISO) an earlier day |
| Charts.OldestFirst | backend/routes/analytics.js:88 | orders sorted oldest first have ascending periods |
| Charts.BuildDateFilter | backend/routes/analytics.js:75-80 | the filter selects the tenant's orders inside the inclusive bounds, and is unusable iff a date is invalid |
| Charts.OrdersByDateRows | backend/routes/analytics.js:70-111 | fails iff a date is invalid; otherwise it folds every one of the tenant's orders in range exactly once |
| Charts.OrdersByDateBuckets | backend/routes/analytics.js:92-105 | one bucket per day with correct counts and revenue, ascending for ISO timestamps |
| Charts.MonthlyTrendsSound | backend/routes/analytics.js:212-245 | each of the tenant's orders counted once, one bucket per month, months ascending |
| Analytics.AggregateSum | backend/routes/analytics.js:23-26 | `_sum` is `null` exactly over no rows |
| Analytics.AggregateAvg | backend/routes/analytics.js:29-32 | `_avg` is `null` over no rows, otherwise average times count equals the sum |
| Analytics.GetOverview | backend/routes/analytics.js:11-67 | the tenant's customer, order and product counts; total and last-30-days revenue as the sums of those orders' totals; recent orders at most all orders; zeros when there are no orders; average times count equals revenue |
| Analytics.RecentAmongAll | backend/routes/analytics.js:38-52 | the last thirty days' orders are among the tenant's orders |
| Analytics.SpentOverSplit | backend/routes/analytics.js:23-26 | a sum splits over a subset and the rest |
| Analytics.SpentOverNonnegative | backend/routes/analytics.js:23-26 | non-negative prices sum to a non-negative total |
| Analytics.RecentRevenueWithinTotal | backend/routes/analytics.js:38-61 | with no negative totals, recent revenue never exceeds total revenue |
| Analytics.TopLimit | backend/routes/analytics.js:117 | `parseInt(limit) \|\| 5` is never 0 and keeps a non-zero parsed limit |
| Analytics.TakenFromOrdered | backend/routes/analytics.js:121-122 | taking from a list sorted by spend keeps it sorted; with a positive limit nobody left out spent more |
| Analytics.TopCustomersSound | backend/routes/analytics.js:114-138 | at most `\|limit\|` of the tenant's customers, biggest spender first; with a positive limit nobody left out spent more than anyone listed |
| Analytics.GroupCounts | backend/routes/analytics.js:146-150 | `_count` per group is the number of the group's rows |
| Analytics.CoveredSplit | backend/routes/analytics.js:146-150 | the rows of distinct groups split into those of the earlier groups and, apart from them, those of the last |
| Analytics.CountsCover | backend/routes/analytics.js:146-150 | counts over distinct groups add up to the rows those groups cover |
| Analytics.GroupCountsTotal | backend/routes/analytics.js:146-150 | the group counts add up to all selected rows, each group non-empty |
| Analytics.Label | backend/routes/analytics.js:155 | `x \|\| fallback`: a given status shows as itself, a null or empty one as the fallback |
| Analytics.UnknownLabelRepeats | backend/routes/analytics.js:155 | a null status and an empty status are distinct groups, yet both show as `unknown`, so the reply can carry a label twice |
| Analytics.RevenuesCover | backend/routes/analytics.js:146-157 | revenues over distinct groups add up to the revenue of the rows they cover |
| Analytics.RevenueByStatusSound | backend/routes/analytics.js:141-163 | one row per status; counts add up to the tenant's orders and revenues to their total |
| Analytics.FulfillmentSound | backend/routes/analytics.js:189-209 | counts add up to the tenant's orders, each positive; no status shows as `unfulfilled` |
| Analytics.ProductsByStatusSound | backend/routes/analytics.js:166-186 | counts add up to the tenant's products, each positive |
| DataTable.Pagination | src/components/DataTable.js:63-75 | five consecutive pages within 1..totalPages (all of them when fewer), holding the current page and centred on it away from the ends, the first button being `max(1, min(page - 2, totalPages - 4))`; previous disabled iff page 1, next iff the last page |

## Left out

- HTTP plumbing, authentication middleware, logging and `console` output are not modelled. Routes take the tenant id as a parameter, and replies are values.
- Concurrency is not modelled: `Promise.all` in the routes is read as two independent reads of one snapshot, and overlapping webhook deliveries and sync runs are not considered.
- Money is integer cents. `parseFloat(x) || 0` is modelled as a parsed amount that is `None` when absent or `NaN`; floating-point rounding of sums and averages is not modelled (the average is a `real`).
- Sync.VariantPrice: the source tests the raw price for truthiness before parsing it. A JSON number `0` therefore gives `null` in the source but `0` in the model, and a non-numeric text gives `NaN` in the source but `null` in the model; Shopify sends prices as decimal text, where the two agree.
- Date parsing is not modelled: a timestamp is its ISO text, and what `new Date(text)` yields for a query parameter is given in the query (`OrdersRoute.JsDate`). An invalid date in a stored record is not considered.
- The `since` instant of the overview (now minus thirty days, computed in local time) is a parameter, because it reads the clock.
- The webhook HMAC is never computed by the source (the comparison is commented out); `crypto` is not modelled.
- Store faults are modelled in the writes of the sub-syncs' records, in the statistics pass and at the `completed` log write. A fault in `createSyncLog`, in the `failed` log write of a `catch`, or in the full sync's own log writes is not modelled. In the webhooks and routes, a store error other than those named (invalid page window, invalid date, missing shop domain) is not modelled.
- A raw field that is `None` stands for both a JSON `null` and a missing key, which the source treats apart: Prisma skips an `undefined` value in `update` data and keeps the stored column, and `new Date(undefined)` is an invalid date that makes the write throw. The members below state the `null` reading.
- Sync.UpdatedDraftOrder: a draft without a `name`, `currency` or `status` key has that column written as `null`; the source keeps the stored value.
- Sync.UpdatedProduct: a product without one of its text keys, or whose first image has no `src`, has that column written as `null`; the source keeps the stored value.
- Webhooks.DateOf: a missing timestamp is read as the epoch; in the source it is an invalid date, and the webhook answers 500.
- Webhooks.HookUpdatedCustomer: a payload without `email`, `first_name`, `last_name` or `phone` has that column written as `null`; the source keeps the stored value.
- Webhooks.HookUpdatedOrder: a payload without `email`, `financial_status`, `fulfillment_status` or `currency` has that column written as `null`; the source keeps the stored value.
- Webhooks.HookUpdatedProduct: a payload without one of its text keys, or whose first image has no `src`, has that column written as `null`; the source keeps the stored value.
- Sorting on a nullable column puts nulls where the database chooses. The model constrains only dated pairs (`OrdersRoute.Newer`) and leaves the tie order of equal sort keys to the store.
- `orderBy: { createdAt: 'desc' }` is modelled as descending row id: both grow as rows are stored.
- `Shopify.FetchAllPages`: the page walk carries a page budget (`fuel`). A walk that exceeds it is `Stalled`, which stands for a walk that never ends; the source has no bound.
- Percent-encoding of query strings is not modelled (`Shopify.QueryString`).
- Table defaults of the schema beyond the columns the code writes are taken as `0`, `false` or `null`.
- The routes take the row id as a number, where the source passes the path parameter as text to the store.
- Case-insensitive search folds ASCII letters only (`Text.Lower`).
- The single-record Shopify fetches (`getCustomer`, `getOrder`, `getProduct`, `getShopInfo`) and the count endpoints are not called by the sync and are not modelled. `getOrders` is modelled as its endpoint only, since no sync path calls it.
- Rendering of the dashboard is not modelled beyond the page numbers and disabled states of `Pagination`. The caller shows the pager only when there is more than one page.
- Analytics.GetOverview: the `|| 0` fallbacks of the overview are stated for an empty order set; the sums are otherwise exact integers, without floating-point rounding.
- Listing.ListResponseSound: the non-empty-page guarantee is stated for a positive limit only. A negative limit returns rows counted from the end, as `Listing.SliceBounds` states.
