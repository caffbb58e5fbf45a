/**
 * What the list and detail routes share: the `page`/`limit` query parameters and the `skip`
 * and `totalPages` arithmetic built from them, the store's `findMany` with `orderBy`, `skip` and
 * `take` (specified as the pages the store may return, since ties are broken by the store), and
 * `findFirst`.
 */
module Listing {
  import opened Wrappers
  import opened Text
  import opened Records

  /** A numeric query parameter after `parseInt`: absent, a number, or `NaN`. */
  datatype NumParam = Absent | Num(value: int) | NaN

  /** A string query parameter is used only when truthy: present and non-empty. */
  predicate Given(p: Option<string>) {
    p.Some? && p.value != ""
  }

  /** The `page` and `limit` query parameters (defaults 1 and 20). */
  datatype PageQuery = PageQuery(page: NumParam, limit: NumParam)

  function WithDefault(p: NumParam, d: int): NumParam {
    if p.Absent? then Num(d) else p
  }

  /**
   * The window the store is asked for, when it can be: `skip = (page - 1) * limit` and
   * `take = limit`. A `NaN` or a negative `skip` makes the store throw, which the route answers
   * with 500; a negative `take` is allowed (it counts from the end).
   */
  function Paging(q: PageQuery): (r: Option<(nat, int)>)
    ensures r.Some? ==> WithDefault(q.page, 1).Num? && WithDefault(q.limit, 20).Num?
    ensures r.Some? ==> r.value.0 == (WithDefault(q.page, 1).value - 1) * WithDefault(q.limit, 20).value
                        && r.value.1 == WithDefault(q.limit, 20).value
    ensures r.None? <==> WithDefault(q.page, 1).NaN? || WithDefault(q.limit, 20).NaN?
                         || (WithDefault(q.page, 1).value - 1) * WithDefault(q.limit, 20).value < 0
  {
    var page, limit := WithDefault(q.page, 1), WithDefault(q.limit, 20);
    if page.NaN? || limit.NaN? then None
    else
      var skip := (page.value - 1) * limit.value;
      if skip < 0 then None else Some((skip, limit.value))
  }

  /** Without parameters the first 20 rows are asked for; with a limit alone, the first `limit`. */
  lemma PagingDefaults(limit: int)
    ensures Paging(PageQuery(Absent, Absent)) == Some((0, 20))
    ensures Paging(PageQuery(Absent, Num(limit))) == Some((0, limit))
  {
  }

  /** Consecutive pages ask for adjacent windows; past the first page, a negative limit fails. */
  lemma ConsecutivePages(page: int, limit: int)
    requires page >= 1
    ensures limit >= 0 ==>
              var a, b := Paging(PageQuery(Num(page), Num(limit))), Paging(PageQuery(Num(page + 1), Num(limit)));
              a.Some? && b.Some? && b.value.0 == a.value.0 + limit
    ensures limit < 0 && page >= 2 ==> Paging(PageQuery(Num(page), Num(limit))).None?
  {
    assert page * limit == (page - 1) * limit + limit;
    if limit >= 0 {
      assert (page - 1) * limit >= 0;
    } else if page >= 2 {
      assert (page - 1) * limit <= limit;
    }
  }

  /**
   * `Math.ceil(total / limit)`; a zero limit divides to `Infinity` or `NaN`, which the JSON
   * body carries as `null`.
   */
  function TotalPages(total: nat, limit: int): (r: Option<int>)
    ensures r.None? <==> limit == 0
    ensures r.Some? && limit > 0 ==> r.value >= 0 && (r.value - 1) * limit < total <= r.value * limit
    ensures r.Some? && limit < 0 ==> r.value <= 0 && r.value * limit <= total < (r.value - 1) * limit
  {
    if limit == 0 then None
    else if limit > 0 then
      var n := (total + limit - 1) / limit;
      assert n * limit + (total + limit - 1) % limit == total + limit - 1;
      assert (n - 1) * limit == n * limit - limit;
      Some(n)
    else
      var m := -limit;
      var n := total / m;
      assert n * m + total % m == total;
      assert (-n) * limit == n * m;
      assert (-n - 1) * limit == n * m + m;
      Some(-n)
  }

  /** Pages 1 to `TotalPages` are exactly the pages whose window starts inside the matching rows. */
  lemma PagesCoverRows(total: nat, limit: nat, page: int)
    requires limit > 0 && page >= 1
    ensures page <= TotalPages(total, limit).value <==> (page - 1) * limit < total
  {
    var n := TotalPages(total, limit).value;
    if page <= n {
      assert (page - 1) * limit <= (n - 1) * limit;
    } else {
      assert (page - 1) * limit >= n * limit;
    }
  }

  // ---- findMany ----

  /** The keys of the rows the `where` clause selects. */
  function Matching<T>(rows: map<Key, T>, matches: T -> bool): set<Key> {
    set k | k in rows && matches(rows[k])
  }

  /**
   * `ks` is an order the store may return the selected rows in: every selected key exactly once,
   * and no row placed after a row that `before` says it precedes (rows the order does not
   * separate come in the store's own order).
   */
  ghost predicate Arranged<T>(rows: map<Key, T>, matches: T -> bool, before: (T, T) -> bool, ks: seq<Key>) {
    && (forall i :: 0 <= i < |ks| ==> ks[i] in rows && matches(rows[ks[i]]))
    && (forall k :: k in rows && matches(rows[k]) ==> k in ks)
    && (forall i, j :: 0 <= i < j < |ks| ==> ks[i] != ks[j])
    && (forall i, j :: 0 <= i < j < |ks| ==> !before(rows[ks[j]], rows[ks[i]]))
  }

  function RowsAt<T>(rows: map<Key, T>, ks: seq<Key>): (r: seq<T>)
    requires forall i :: 0 <= i < |ks| ==> ks[i] in rows
    ensures |r| == |ks| && forall i :: 0 <= i < |ks| ==> r[i] == rows[ks[i]]
  {
    seq(|ks|, i requires 0 <= i < |ks| => rows[ks[i]])
  }

  function Abs(x: int): nat { if x < 0 then -x else x }

  /**
   * The positions `[lo, hi)` of `n` rows that `skip` and `take` select: a non-negative `take`
   * counts forward after the skipped rows, a negative one backward from the end before them.
   */
  function SliceBounds(n: nat, skip: nat, take: int): (r: (nat, nat))
    ensures r.0 <= r.1 <= n && r.1 - r.0 <= Abs(take)
    ensures take >= 0 ==> r.0 == (if skip < n then skip else n)
    ensures take >= 0 && skip + take <= n ==> r.1 - r.0 == take
    ensures take < 0 ==> r.1 == (if skip < n then n - skip else 0)
  {
    if take >= 0 then
      var lo := if skip < n then skip else n;
      (lo, if skip + take < n then skip + take else n)
    else
      var hi := if skip < n then n - skip else 0;
      (if hi + take > 0 then hi + take else 0, hi)
  }

  /** `skip` then `take` on a sequence. */
  function Slice<T>(s: seq<T>, skip: nat, take: int): (r: seq<T>)
    ensures |r| == SliceBounds(|s|, skip, take).1 - SliceBounds(|s|, skip, take).0
    ensures forall i :: 0 <= i < |r| ==> r[i] == s[SliceBounds(|s|, skip, take).0 + i]
  {
    s[SliceBounds(|s|, skip, take).0..SliceBounds(|s|, skip, take).1]
  }

  /** `findMany({ where, orderBy, skip, take })` may answer `page`. */
  ghost predicate ListedPage<T>(rows: map<Key, T>, matches: T -> bool, before: (T, T) -> bool, skip: nat, take: int, page: seq<T>) {
    exists ks :: Arranged(rows, matches, before, ks) && page == Slice(RowsAt(rows, ks), skip, take)
  }

  lemma {:induction false} DistinctCard(ks: seq<Key>)
    requires forall i, j :: 0 <= i < j < |ks| ==> ks[i] != ks[j]
    ensures |set k | k in ks| == |ks|
    decreases |ks|
  {
    if ks != [] {
      var rest := ks[..|ks| - 1];
      DistinctCard(rest);
      assert (set k | k in ks) == (set k | k in rest) + {ks[|ks| - 1]};
      assert ks[|ks| - 1] !in rest;
    }
  }

  /** An arrangement lists as many keys as the `where` clause selects: `count` agrees with `findMany`. */
  lemma ArrangedCount<T>(rows: map<Key, T>, matches: T -> bool, before: (T, T) -> bool, ks: seq<Key>)
    requires Arranged(rows, matches, before, ks)
    ensures |ks| == |Matching(rows, matches)|
  {
    DistinctCard(ks);
    assert (set k | k in ks) == Matching(rows, matches);
  }

  /**
   * A page of `findMany`: the selected rows at the positions `skip` and `take` pick (so at
   * most `|take|` of them), every one of them selected and stored, and in the requested order.
   */
  lemma ListedPageSound<T>(rows: map<Key, T>, matches: T -> bool, before: (T, T) -> bool, skip: nat, take: int, page: seq<T>)
    requires ListedPage(rows, matches, before, skip, take, page)
    ensures |page| == SliceBounds(|Matching(rows, matches)|, skip, take).1 - SliceBounds(|Matching(rows, matches)|, skip, take).0
    ensures |page| <= Abs(take)
    ensures forall i :: 0 <= i < |page| ==> matches(page[i]) && page[i] in rows.Values
    ensures forall i, j :: 0 <= i < j < |page| ==> !before(page[j], page[i])
  {
    var ks :| Arranged(rows, matches, before, ks) && page == Slice(RowsAt(rows, ks), skip, take);
    ArrangedCount(rows, matches, before, ks);
    PageOfArrangement(rows, matches, before, ks, skip, take);
  }

  /** The page a given arrangement yields. */
  lemma PageOfArrangement<T>(rows: map<Key, T>, matches: T -> bool, before: (T, T) -> bool, ks: seq<Key>, skip: nat, take: int)
    requires Arranged(rows, matches, before, ks)
    ensures var page := Slice(RowsAt(rows, ks), skip, take);
            && |page| == SliceBounds(|ks|, skip, take).1 - SliceBounds(|ks|, skip, take).0
            && |page| <= Abs(take)
            && (forall i :: 0 <= i < |page| ==> matches(page[i]) && page[i] in rows.Values)
            && (forall i, j :: 0 <= i < j < |page| ==> !before(page[j], page[i]))
  {
    var page := Slice(RowsAt(rows, ks), skip, take);
    SliceAt(RowsAt(rows, ks), skip, take);
    SliceOfArranged(rows, matches, before, ks, SliceBounds(|ks|, skip, take).0, page);
  }

  /** Where a slice sits in the sequence it is taken from. */
  lemma SliceAt<T>(s: seq<T>, skip: nat, take: int)
    ensures var lo := SliceBounds(|s|, skip, take).0;
            var r := Slice(s, skip, take);
            lo + |r| <= |s| && |r| <= Abs(take) && forall i :: 0 <= i < |r| ==> r[i] == s[lo + i]
  {
  }

  /** A run of consecutive rows of an arrangement is selected, stored, and in order. */
  lemma SliceOfArranged<T>(rows: map<Key, T>, matches: T -> bool, before: (T, T) -> bool, ks: seq<Key>, lo: nat, page: seq<T>)
    requires Arranged(rows, matches, before, ks) && lo + |page| <= |ks|
    requires forall i :: 0 <= i < |page| ==> page[i] == RowsAt(rows, ks)[lo + i]
    ensures forall i :: 0 <= i < |page| ==> matches(page[i]) && page[i] in rows.Values
    ensures forall i, j :: 0 <= i < j < |page| ==> !before(page[j], page[i])
  {
    forall i | 0 <= i < |page| ensures matches(page[i]) && page[i] in rows.Values {
      assert page[i] == RowsAt(rows, ks)[lo + i] == rows[ks[lo + i]];
    }
    forall i, j | 0 <= i < j < |page| ensures !before(page[j], page[i]) {
      assert page[i] == rows[ks[lo + i]] && page[j] == rows[ks[lo + j]];
    }
  }

  lemma DivBounds(i: nat, limit: nat)
    requires limit > 0
    ensures (i / limit) * limit <= i < (i / limit) * limit + limit
  {
  }

  /**
   * Every selected row appears on a page of the arrangement: row `i` is on page `i / limit + 1`,
   * which is within `totalPages`.
   */
  lemma PagesPartition<T>(rows: map<Key, T>, matches: T -> bool, before: (T, T) -> bool, ks: seq<Key>, limit: nat, i: nat)
    requires Arranged(rows, matches, before, ks) && limit > 0 && i < |ks|
    ensures var lo := (i / limit) * limit;
            && lo <= i < lo + limit
            && Slice(RowsAt(rows, ks), lo, limit)[i - lo] == rows[ks[i]]
            && i / limit + 1 <= TotalPages(|Matching(rows, matches)|, limit).value
  {
    DivBounds(i, limit);
    ArrangedCount(rows, matches, before, ks);
    var page := i / limit + 1;
    assert (page - 1) * limit == (i / limit) * limit;
    PagesCoverRows(|ks|, limit, page);
  }

  /** `findMany({ where, orderBy })` without paging may answer `all`. */
  ghost predicate ListedAll<T>(rows: map<Key, T>, matches: T -> bool, before: (T, T) -> bool, all: seq<T>) {
    exists ks :: Arranged(rows, matches, before, ks) && all == RowsAt(rows, ks)
  }

  /** All the selected rows, each once, in the requested order. */
  lemma ListedAllSound<T>(rows: map<Key, T>, matches: T -> bool, before: (T, T) -> bool, all: seq<T>)
    requires ListedAll(rows, matches, before, all)
    ensures |all| == |Matching(rows, matches)|
    ensures forall i :: 0 <= i < |all| ==> matches(all[i]) && all[i] in rows.Values
    ensures forall k :: k in rows && matches(rows[k]) ==> rows[k] in all
    ensures forall i, j :: 0 <= i < j < |all| ==> !before(all[j], all[i])
  {
    var ks :| Arranged(rows, matches, before, ks) && all == RowsAt(rows, ks);
    ArrangedCount(rows, matches, before, ks);
    forall i | 0 <= i < |all| ensures matches(all[i]) && all[i] in rows.Values {
      assert all[i] == rows[ks[i]];
    }
    forall k | k in rows && matches(rows[k]) ensures rows[k] in all {
      var i :| 0 <= i < |ks| && ks[i] == k;
      assert all[i] == rows[k];
    }
    forall i, j | 0 <= i < j < |all| ensures !before(all[j], all[i]) {
      assert all[i] == rows[ks[i]] && all[j] == rows[ks[j]];
    }
  }

  // ---- findFirst ----

  /** `findFirst({ where })`: some selected row, or `null` when none is selected. */
  ghost function FindFirst<T>(rows: map<Key, T>, matches: T -> bool): (r: Option<T>)
    ensures r.Some? <==> exists k :: k in rows && matches(rows[k])
    ensures r.Some? ==> r.value in rows.Values && matches(r.value)
  {
    if exists k :: k in rows && matches(rows[k]) then
      var k :| k in rows && matches(rows[k]);
      Some(rows[k])
    else None
  }

  // ---- where clauses ----

  /** One `{ field: { contains: text, mode: 'insensitive' } }` entry of an `OR` list. */
  datatype Condition<F> = ContainsText(field: F, text: string)

  /** A nullable text column holds `text`, ignoring case; a null column matches nothing. */
  predicate ColumnContains(column: Option<string>, text: string) {
    column.Some? && ContainsInsensitive(column.value, text)
  }

  /** An `OR` list holds when one of its entries does; a missing list selects everything. */
  predicate AnyHolds<F, T>(conditions: Option<seq<Condition<F>>>, columnOf: (T, F) -> Option<string>, row: T) {
    conditions.Some? ==>
      exists i :: 0 <= i < |conditions.value| && ColumnContains(columnOf(row, conditions.value[i].field), conditions.value[i].text)
  }

  // ---- Replies ----

  /** The JSON body of a detail route, or its 404 error. */
  datatype Lookup<T> = Found(row: T) | Missing(status: nat, error: string)

  /** The JSON body of a list route, or its 500 error. */
  datatype ListReply<T> =
    | Listed(rows: seq<T>, page: int, limit: int, total: nat, totalPages: Option<int>)
    | ListFailed(error: string)

  /**
   * The reply of a list route over `rows` for a `where` clause and an order: the page the store
   * returns, `total` from `count` on the same `where`, and `totalPages` from both.
   */
  ghost predicate ListResponse<T>(rows: map<Key, T>, matches: T -> bool, before: (T, T) -> bool,
                                  q: PageQuery, failure: string, reply: ListReply<T>) {
    match Paging(q)
    case None => reply == ListFailed(failure)
    case Some((skip, take)) =>
      && reply.Listed?
      && ListedPage(rows, matches, before, skip, take, reply.rows)
      && reply.page == WithDefault(q.page, 1).value && reply.limit == take
      && reply.total == |Matching(rows, matches)|
      && reply.totalPages == TotalPages(reply.total, take)
  }

  /** What every list reply promises, whatever the `where` clause and order. */
  lemma ListResponseSound<T>(rows: map<Key, T>, matches: T -> bool, before: (T, T) -> bool,
                             q: PageQuery, failure: string, reply: ListReply<T>)
    requires ListResponse(rows, matches, before, q, failure, reply)
    ensures reply.ListFailed? <==> Paging(q).None?
    ensures reply.Listed? ==>
              && |reply.rows| <= Abs(reply.limit)
              && (forall i :: 0 <= i < |reply.rows| ==> matches(reply.rows[i]) && reply.rows[i] in rows.Values)
              && (forall i, j :: 0 <= i < j < |reply.rows| ==> !before(reply.rows[j], reply.rows[i]))
              && (reply.total > 0 && reply.limit > 0 && 1 <= reply.page <= reply.totalPages.value ==> |reply.rows| > 0)
  {
    if reply.Listed? {
      var skip, take := Paging(q).value.0, Paging(q).value.1;
      ListedPageSound(rows, matches, before, skip, take, reply.rows);
      if reply.total > 0 && reply.limit > 0 && 1 <= reply.page <= reply.totalPages.value {
        PagesCoverRows(reply.total, take, reply.page);
      }
    }
  }
}
