/**
 * The commerce-API client: store-URL normalisation and base URL, the default query parameters
 * of each collection endpoint, and the loop that follows `next` links and concatenates pages.
 * The HTTP transport is an abstract page oracle from URL to response; the loop carries a page
 * budget (`fuel`) so that a server that never stops announcing `next` links is representable.
 */
module Shopify {
  import opened Wrappers
  import opened Text
  import opened Records
  import opened LinkHeader

  const DefaultApiVersion: string := "2024-01"

  /** `url.replace('https://', '').replace('http://', '').replace(/\/$/, '')`. */
  function NormalizeStoreUrl(url: string): string {
    StripTrailingSlash(ReplaceFirst(ReplaceFirst(url, "https://", ""), "http://", ""))
  }

  /** A client bound to one store: the normalised store host, the token and the API version. */
  datatype Client = Client(storeUrl: string, accessToken: string, apiVersion: string) {
    /** `https://{store}/admin/api/{version}`. */
    function BaseUrl(): string {
      "https://" + storeUrl + "/admin/api/" + apiVersion
    }

    /** The first URL fetched for an endpoint. */
    function UrlFor(endpoint: string): string {
      BaseUrl() + "/" + endpoint
    }
  }

  /** The constructor: the stored store URL is the normalised one. */
  function NewClient(storeUrl: string, accessToken: string, apiVersion: string): (c: Client)
    ensures c.accessToken == accessToken && c.apiVersion == apiVersion
    ensures c.BaseUrl() == "https://" + NormalizeStoreUrl(storeUrl) + "/admin/api/" + apiVersion
  {
    Client(NormalizeStoreUrl(storeUrl), accessToken, apiVersion)
  }

  /** A bare host: no scheme separator and no slash. */
  predicate BareHost(h: string) {
    ':' !in h && '/' !in h
  }

  /** A pattern holding a `:` never occurs in a text without one. */
  lemma NoColonNoOccurrence(s: string, pat: string)
    requires ':' !in s && ':' in pat
    ensures forall j :: !OccursAt(s, pat, j)
  {
    var k :| 0 <= k < |pat| && pat[k] == ':';
    forall j ensures !OccursAt(s, pat, j) {
      if 0 <= j && j + |pat| <= |s| {
        assert s[j..j + |pat|][k] == s[j + k];
      }
    }
  }

  /** The optional trailing slash is the only one dropped. */
  lemma StripHostSlash(h: string, slash: bool)
    requires BareHost(h) && h != ""
    ensures StripTrailingSlash(h + (if slash then "/" else "")) == h
  {
    if slash {
      assert (h + "/")[..|h|] == h;
    } else {
      assert h + "" == h;
      assert h[|h| - 1] in h;
    }
  }

  lemma SchemesHaveColon()
    ensures ':' in "https://" && ':' in "http://"
  {
    assert "https://"[5] == ':' && "http://"[4] == ':';
  }

  /**
   * Whatever scheme prefix (none, `http://`, `https://`) and trailing slash a bare host is
   * written with, normalisation gives the host back.
   */
  lemma NormalizeBareHost(h: string, scheme: string, slash: bool)
    requires BareHost(h) && h != ""
    requires scheme == "" || scheme == "http://" || scheme == "https://"
    ensures NormalizeStoreUrl(scheme + h + (if slash then "/" else "")) == h
  {
    var rest := h + (if slash then "/" else "");
    assert ':' !in rest;
    assert scheme + h + (if slash then "/" else "") == scheme + rest;
    SchemesHaveColon();
    NoColonNoOccurrence(rest, "http://");
    ReplaceFirstAbsent(rest, "http://", "");
    assert ReplaceFirst(ReplaceFirst(scheme + rest, "https://", ""), "http://", "") == rest by {
      if scheme == "https://" {
        ReplaceFirstAtStart(scheme + rest, "https://", rest, "");
      } else if scheme == "http://" {
        HttpsAbsentAfterHttp(rest);
        ReplaceFirstAbsent(scheme + rest, "https://", "");
        ReplaceFirstAtStart(scheme + rest, "http://", rest, "");
      } else {
        assert scheme + rest == rest;
        NoColonNoOccurrence(rest, "https://");
        ReplaceFirstAbsent(rest, "https://", "");
      }
    }
    StripHostSlash(h, slash);
  }

  /** `https://` does not occur in `http://` followed by colon-free text. */
  lemma HttpsAbsentAfterHttp(rest: string)
    requires ':' !in rest
    ensures forall j :: !OccursAt("http://" + rest, "https://", j)
  {
    var u := "http://" + rest;
    forall j ensures !OccursAt(u, "https://", j) {
      if 0 <= j && j + 8 <= |u| {
        if j == 0 {
          assert u[j..j + 8][4] == u[4] == ':';
        } else if j == 1 {
          assert u[j..j + 8][0] == u[1] == 't';
        } else {
          assert u[j..j + 8][5] == u[j + 5] == rest[j + 5 - 7];
        }
      }
    }
  }

  // ---- Query parameters ----

  /** The entries of a plain object, in key order; a later entry replaces an earlier one with the same key. */
  type Params = seq<(string, string)>

  /** The keys of the entries. */
  function Keys(ps: Params): set<string> {
    set i | 0 <= i < |ps| :: ps[i].0
  }

  /** The value under `k`, if any. */
  function Get(ps: Params, k: string): Option<string> {
    if ps == [] then None
    else if ps[|ps| - 1].0 == k then Some(ps[|ps| - 1].1)
    else Get(ps[..|ps| - 1], k)
  }

  /** Every entry under `k` gets the value `v`; order and length are kept. */
  function SetAt(ps: Params, k: string, v: string): (r: Params)
    ensures |r| == |ps|
    ensures forall i :: 0 <= i < |ps| ==> r[i].0 == ps[i].0
    ensures Get(ps, k).Some? ==> Get(r, k) == Some(v)
    ensures forall k' :: k' != k ==> Get(r, k') == Get(ps, k')
    decreases |ps|
  {
    if ps == [] then []
    else
      var last := ps[|ps| - 1];
      var r := SetAt(ps[..|ps| - 1], k, v) + [if last.0 == k then (k, v) else last];
      assert r[..|r| - 1] == SetAt(ps[..|ps| - 1], k, v);
      r
  }

  /** Assigning one property: replaced in place when the key exists, appended at the end otherwise. */
  function Put(ps: Params, k: string, v: string): (r: Params)
    ensures Get(r, k) == Some(v)
    ensures forall k' :: k' != k ==> Get(r, k') == Get(ps, k')
    ensures |ps| <= |r| && forall i :: 0 <= i < |ps| ==> r[i].0 == ps[i].0
  {
    if Get(ps, k).Some? then SetAt(ps, k, v)
    else
      var r := ps + [(k, v)];
      assert r[..|r| - 1] == ps;
      r
  }

  /** `{ ...defaults, ...params }`: the defaults' keys keep their place, the caller's values win. */
  function Spread(defaults: Params, params: Params): (r: Params)
    ensures forall k :: Get(r, k) == if Get(params, k).Some? then Get(params, k) else Get(defaults, k)
    ensures |defaults| <= |r| && forall i :: 0 <= i < |defaults| ==> r[i].0 == defaults[i].0
    decreases |params|
  {
    if params == [] then defaults
    else
      var init := params[..|params| - 1];
      var last := params[|params| - 1];
      Put(Spread(defaults, init), last.0, last.1)
  }

  /** `new URLSearchParams(ps).toString()` (no percent-encoding in this model). */
  function QueryString(ps: Params): (q: string)
    ensures q == "" <==> ps == []
  {
    if ps == [] then ""
    else
      var q := Pair(ps[0]) + (if |ps| == 1 then "" else "&" + QueryString(ps[1..]));
      assert '=' in Pair(ps[0]) by { assert Pair(ps[0])[|ps[0].0|] == '='; }
      q
  }

  function Pair(p: (string, string)): string {
    p.0 + "=" + p.1
  }

  const PageSize: Params := [("limit", "250")]

  /** The customers endpoint: the page-size default is used only when no parameter is given. */
  function CustomersEndpoint(params: Params): (e: string)
    ensures params == [] ==> e == "customers.json?limit=250"
    ensures params != [] ==> e == "customers.json?" + QueryString(params)
  {
    var q := QueryString(params);
    if q != "" then "customers.json?" + q else "customers.json?limit=250"
  }

  /** The orders endpoint: all statuses and the page-size ceiling unless the caller overrides them. */
  function OrdersEndpoint(params: Params): string {
    "orders.json?" + QueryString(Spread([("status", "any"), ("limit", "250")], params))
  }

  function DraftOrdersEndpoint(params: Params): string {
    "draft_orders.json?" + QueryString(Spread(PageSize, params))
  }

  function ProductsEndpoint(params: Params): string {
    "products.json?" + QueryString(Spread(PageSize, params))
  }

  /** Orders: `status` and `limit` come first, default to `any` and `250`, and the caller's values replace them. */
  lemma OrdersDefaults(params: Params)
    ensures var ps := Spread([("status", "any"), ("limit", "250")], params);
            && ps[0].0 == "status" && ps[1].0 == "limit"
            && Get(ps, "status") == (if Get(params, "status").Some? then Get(params, "status") else Some("any"))
            && Get(ps, "limit") == (if Get(params, "limit").Some? then Get(params, "limit") else Some("250"))
            && forall k :: k != "status" && k != "limit" ==> Get(ps, k) == Get(params, k)
  {
  }

  /** Draft orders and products: `limit` comes first and defaults to `250`; every other value is the caller's. */
  lemma PageSizeDefault(params: Params)
    ensures var ps := Spread(PageSize, params);
            && ps[0].0 == "limit"
            && Get(ps, "limit") == (if Get(params, "limit").Some? then Get(params, "limit") else Some("250"))
            && forall k :: k != "limit" ==> Get(ps, k) == Get(params, k)
  {
  }

  /** With the default (empty) parameters, the three spread endpoints ask for all statuses and pages of 250. */
  lemma DefaultEndpoints()
    ensures OrdersEndpoint([]) == "orders.json?status=any&limit=250"
    ensures DraftOrdersEndpoint([]) == "draft_orders.json?limit=250"
    ensures ProductsEndpoint([]) == "products.json?limit=250"
  {
  }

  // ---- Fetching every page ----

  /** One page of a collection: the array under the resource key (absent = `None`) and the `Link` header. */
  datatype Page<T> = Page(records: Option<seq<T>>, link: Option<string>)

  /** A page request either answers or throws. */
  datatype Response<T> = Ok(page: Page<T>) | Fail(error: Error)

  /** The HTTP transport: the response the server gives for a URL. */
  type Api<T> = string -> Response<T>

  /** How collecting a whole collection ends: every record, the first error, or out of page budget. */
  datatype Fetch<T> = Fetched(records: seq<T>) | Failed(error: Error) | Stalled

  /** The records a page contributes: its array, or none when the key is missing. */
  function PageRecords<T>(p: Page<T>): seq<T> {
    p.records.GetOr([])
  }

  /** Prepends records already collected to the outcome of the rest of the walk. */
  function Prepend<T>(done: seq<T>, rest: Fetch<T>): Fetch<T> {
    match rest
    case Fetched(rs) => Fetched(done + rs)
    case _ => rest
  }

  /**
   * The walk from `url`: fetch it, keep its records, stop when the `Link` header names no next
   * page, otherwise continue from that page; the first error ends the walk with that error.
   */
  function FetchFrom<T>(api: Api<T>, url: string, fuel: nat): Fetch<T>
    decreases fuel
  {
    if fuel == 0 then Stalled
    else match api(url)
      case Fail(e) => Fetch.Failed(e)
      case Ok(p) =>
        match NextLink(p.link)
        case None => Fetched(PageRecords(p))
        case Some(next) => Prepend(PageRecords(p), FetchFrom(api, next, fuel - 1))
  }

  lemma PrependPrepend<T>(a: seq<T>, b: seq<T>, rest: Fetch<T>)
    ensures Prepend(a, Prepend(b, rest)) == Prepend(a + b, rest)
  {
    if rest.Fetched? {
      assert a + (b + rest.records) == (a + b) + rest.records;
    }
  }

  /**
   * `fetchAllPages`: starting at the endpoint's URL, fetch pages while there is a next URL,
   * appending each page's records; any failed fetch ends it with that error and no records.
   */
  method FetchAllPages<T>(api: Api<T>, client: Client, endpoint: string, fuel: nat) returns (out: Fetch<T>)
    ensures out == FetchFrom(api, client.UrlFor(endpoint), fuel)
  {
    var allData: seq<T> := [];
    var url: Option<string> := Some(client.UrlFor(endpoint));
    var budget := fuel;
    while url.Some?
      invariant url.Some? ==> FetchFrom(api, client.UrlFor(endpoint), fuel) == Prepend(allData, FetchFrom(api, url.value, budget))
      invariant url.None? ==> FetchFrom(api, client.UrlFor(endpoint), fuel) == Fetched(allData)
      decreases budget, if url.Some? then 1 else 0
    {
      if budget == 0 {
        return Stalled;
      }
      var response := api(url.value);
      match response {
        case Fail(e) =>
          return Fetch.Failed(e);
        case Ok(p) =>
          ghost var here := url.value;
          var next := GetNextPageUrl(p.link);
          PrependPrepend(allData, PageRecords(p), if next.Some? then FetchFrom(api, next.value, budget - 1) else Fetched([]));
          assert PageRecords(p) + [] == PageRecords(p);
          assert allData + PageRecords(p) + [] == allData + PageRecords(p);
          allData := allData + PageRecords(p);
          url := next;
          budget := budget - 1;
      }
    }
    return Fetched(allData);
  }

  /** Once the walk ends within the budget, a larger budget gives the same outcome. */
  lemma {:induction false} FetchFuelMonotone<T>(api: Api<T>, url: string, fuel: nat, more: nat)
    requires FetchFrom(api, url, fuel) != Stalled && more >= fuel
    ensures FetchFrom(api, url, more) == FetchFrom(api, url, fuel)
    decreases fuel
  {
    match api(url)
    case Fail(e) =>
    case Ok(p) =>
      match NextLink(p.link)
      case None =>
      case Some(next) =>
        FetchFuelMonotone(api, next, fuel - 1, more - 1);
  }

  /** The error of a failed walk is propagated unchanged past every page before the failing one. */
  lemma {:induction false} FailurePropagates<T>(api: Api<T>, url: string, fuel: nat)
    requires FetchFrom(api, url, fuel).Failed?
    ensures exists u :: api(u) == Fail(FetchFrom(api, url, fuel).error)
    decreases fuel
  {
    match api(url)
    case Fail(e) =>
    case Ok(p) =>
      match NextLink(p.link)
      case Some(next) =>
        FailurePropagates(api, next, fuel - 1);
  }
}
