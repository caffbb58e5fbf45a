/**
 * The store's `upsert` on a table with a composite unique key, and what follows from applying it
 * to every record of a fetched list in order: the table only gains keys, and re-running the same
 * list leaves the table as it was after the first run.
 */
module Upsert {
  import opened Wrappers
  import opened Records

  /** A table under its natural key, together with the store's row-id counter. */
  datatype Table<T> = Table(rows: map<Key, T>, nextId: RowId)

  /**
   * One atomic `upsert`: the row under `keyOf(r, tenant)` is rewritten by `update` when present,
   * otherwise `create` makes it with the next row id. No other row is touched.
   */
  function Step<R, T>(tb: Table<T>, r: R, tenant: TenantId, keyOf: (R, TenantId) -> Key,
                      create: (R, TenantId, RowId) -> T, update: (T, R) -> T): (out: Table<T>)
    ensures out.rows.Keys == tb.rows.Keys + {keyOf(r, tenant)}
    ensures forall k :: k in tb.rows && k != keyOf(r, tenant) ==> out.rows[k] == tb.rows[k]
    ensures out.nextId == if keyOf(r, tenant) in tb.rows then tb.nextId else tb.nextId + 1
  {
    var k := keyOf(r, tenant);
    if k in tb.rows then Table(tb.rows[k := update(tb.rows[k], r)], tb.nextId)
    else Table(tb.rows[k := create(r, tenant, tb.nextId)], tb.nextId + 1)
  }

  /** The upserts of `rs`, one after the other, in list order. */
  function UpsertAll<R, T>(tb: Table<T>, rs: seq<R>, tenant: TenantId, keyOf: (R, TenantId) -> Key,
                           create: (R, TenantId, RowId) -> T, update: (T, R) -> T): Table<T>
    decreases |rs|
  {
    if rs == [] then tb
    else Step(UpsertAll(tb, rs[..|rs| - 1], tenant, keyOf, create, update), rs[|rs| - 1], tenant, keyOf, create, update)
  }

  /** Upserting one more record of a list is one more `Step` on the table so far. */
  lemma UpsertAllSnoc<R, T>(tb: Table<T>, rs: seq<R>, i: nat, tenant: TenantId, keyOf: (R, TenantId) -> Key,
                            create: (R, TenantId, RowId) -> T, update: (T, R) -> T)
    requires i < |rs|
    ensures UpsertAll(tb, rs[..i + 1], tenant, keyOf, create, update)
            == Step(UpsertAll(tb, rs[..i], tenant, keyOf, create, update), rs[i], tenant, keyOf, create, update)
  {
    assert rs[..i + 1][..i] == rs[..i];
  }

  /** The last record of `rs` whose key is `k`. */
  function Latest<R>(rs: seq<R>, k: Key, tenant: TenantId, keyOf: (R, TenantId) -> Key): (r: Option<R>)
    ensures r.Some? ==> keyOf(r.value, tenant) == k && r.value in rs
    ensures r.None? ==> forall i :: 0 <= i < |rs| ==> keyOf(rs[i], tenant) != k
    decreases |rs|
  {
    if rs == [] then None
    else if keyOf(rs[|rs| - 1], tenant) == k then Some(rs[|rs| - 1])
    else Latest(rs[..|rs| - 1], k, tenant, keyOf)
  }

  /** Updating twice is updating with the second record: `update` overwrites the same fields every time. */
  ghost predicate LastWriteWins<R(!new), T(!new)>(update: (T, R) -> T) {
    forall c, a, b :: update(update(c, a), b) == update(c, b)
  }

  /** Updating a row with the record that created it changes nothing: create writes what update writes. */
  ghost predicate CreateAgrees<R(!new), T(!new)>(create: (R, TenantId, RowId) -> T, update: (T, R) -> T) {
    forall r, tenant, id :: update(create(r, tenant, id), r) == create(r, tenant, id)
  }

  /** Every key of the list is a row of the table afterwards, and no key disappears. */
  lemma {:induction false} UpsertAllKeys<R, T>(tb: Table<T>, rs: seq<R>, tenant: TenantId, keyOf: (R, TenantId) -> Key,
                                              create: (R, TenantId, RowId) -> T, update: (T, R) -> T)
    ensures var out := UpsertAll(tb, rs, tenant, keyOf, create, update);
            && tb.rows.Keys <= out.rows.Keys
            && (forall i :: 0 <= i < |rs| ==> keyOf(rs[i], tenant) in out.rows)
            && (forall k :: k in out.rows && k !in tb.rows ==> exists i :: 0 <= i < |rs| && keyOf(rs[i], tenant) == k)
    decreases |rs|
  {
    if rs != [] {
      var init := rs[..|rs| - 1];
      UpsertAllKeys(tb, init, tenant, keyOf, create, update);
      var out := UpsertAll(tb, rs, tenant, keyOf, create, update);
      forall i | 0 <= i < |rs| ensures keyOf(rs[i], tenant) in out.rows {
        if i < |rs| - 1 { assert rs[i] == init[i]; }
      }
      forall k | k in out.rows && k !in tb.rows ensures exists i :: 0 <= i < |rs| && keyOf(rs[i], tenant) == k {
        if k != keyOf(rs[|rs| - 1], tenant) {
          var i :| 0 <= i < |init| && keyOf(init[i], tenant) == k;
          assert rs[i] == init[i];
        }
      }
    }
  }

  /** `row` updated with `latest` when there is one. */
  function UpdatedWith<R, T>(row: T, latest: Option<R>, update: (T, R) -> T): T {
    match latest
    case None => row
    case Some(r) => update(row, r)
  }

  /** Every row of `rows` updated with the latest record of `rs` under its key. */
  function Overlay<R, T>(rows: map<Key, T>, rs: seq<R>, tenant: TenantId, keyOf: (R, TenantId) -> Key,
                         update: (T, R) -> T): map<Key, T>
  {
    map k | k in rows :: UpdatedWith(rows[k], Latest(rs, k, tenant, keyOf), update)
  }

  /** On a table that already holds every key of `rs`, the upserts only update: each row gets its latest record. */
  lemma {:induction false} UpsertAllOnPresentKeys<R(!new), T(!new)>(tb: Table<T>, rs: seq<R>, tenant: TenantId, keyOf: (R, TenantId) -> Key,
                                                       create: (R, TenantId, RowId) -> T, update: (T, R) -> T)
    requires LastWriteWins(update)
    requires forall i :: 0 <= i < |rs| ==> keyOf(rs[i], tenant) in tb.rows
    ensures UpsertAll(tb, rs, tenant, keyOf, create, update) == Table(Overlay(tb.rows, rs, tenant, keyOf, update), tb.nextId)
    decreases |rs|
  {
    if rs != [] {
      var init, last := rs[..|rs| - 1], rs[|rs| - 1];
      forall i | 0 <= i < |init| ensures keyOf(init[i], tenant) in tb.rows {
        assert init[i] == rs[i];
      }
      UpsertAllOnPresentKeys(tb, init, tenant, keyOf, create, update);
      var mid := UpsertAll(tb, init, tenant, keyOf, create, update);
      var out := Step(mid, last, tenant, keyOf, create, update);
      var expected := Overlay(tb.rows, rs, tenant, keyOf, update);
      var lk := keyOf(last, tenant);
      assert mid.rows == Overlay(tb.rows, init, tenant, keyOf, update);
      assert lk in mid.rows;
      assert out.rows[lk] == update(mid.rows[lk], last);
      assert Latest(rs, lk, tenant, keyOf) == Some(last);
      LatestUpdateCollapses(tb.rows[lk], Latest(init, lk, tenant, keyOf), last, update);
      assert out.rows[lk] == expected[lk];
      forall k | k in out.rows && k != lk ensures out.rows[k] == expected[k] {
        assert Latest(rs, k, tenant, keyOf) == Latest(init, k, tenant, keyOf);
      }
      assert out.rows == expected;
    }
  }

  lemma LatestUpdateCollapses<R(!new), T(!new)>(row: T, latest: Option<R>, last: R, update: (T, R) -> T)
    requires LastWriteWins(update)
    ensures update(UpdatedWith(row, latest, update), last) == update(row, last)
  {
    if latest.Some? {
      assert update(update(row, latest.value), last) == update(row, last);
    }
  }

  /** After the upserts of `rs`, each key's row is a fixed point of an update with its latest record. */
  lemma {:induction false} UpsertAllSettles<R(!new), T(!new)>(tb: Table<T>, rs: seq<R>, tenant: TenantId, keyOf: (R, TenantId) -> Key,
                                                 create: (R, TenantId, RowId) -> T, update: (T, R) -> T)
    requires LastWriteWins(update) && CreateAgrees(create, update)
    ensures var out := UpsertAll(tb, rs, tenant, keyOf, create, update);
            forall k :: k in out.rows && Latest(rs, k, tenant, keyOf).Some? ==>
              update(out.rows[k], Latest(rs, k, tenant, keyOf).value) == out.rows[k]
    decreases |rs|
  {
    if rs != [] {
      var init, last := rs[..|rs| - 1], rs[|rs| - 1];
      UpsertAllSettles(tb, init, tenant, keyOf, create, update);
      var mid := UpsertAll(tb, init, tenant, keyOf, create, update);
      var out := UpsertAll(tb, rs, tenant, keyOf, create, update);
      var lk := keyOf(last, tenant);
      forall k | k in out.rows && Latest(rs, k, tenant, keyOf).Some?
        ensures update(out.rows[k], Latest(rs, k, tenant, keyOf).value) == out.rows[k]
      {
        if k == lk {
          if lk in mid.rows {
            assert update(update(mid.rows[lk], last), last) == update(mid.rows[lk], last);
          } else {
            assert update(create(last, tenant, mid.nextId), last) == create(last, tenant, mid.nextId);
          }
        } else {
          assert Latest(rs, k, tenant, keyOf) == Latest(init, k, tenant, keyOf);
        }
      }
    }
  }

  /**
   * Idempotence: running the same upserts a second time leaves the table (rows and id counter)
   * exactly as the first run left it; no duplicate row can appear.
   */
  lemma UpsertAllIdempotent<R(!new), T(!new)>(tb: Table<T>, rs: seq<R>, tenant: TenantId, keyOf: (R, TenantId) -> Key,
                                  create: (R, TenantId, RowId) -> T, update: (T, R) -> T)
    requires LastWriteWins(update) && CreateAgrees(create, update)
    ensures var once := UpsertAll(tb, rs, tenant, keyOf, create, update);
            UpsertAll(once, rs, tenant, keyOf, create, update) == once
  {
    var once := UpsertAll(tb, rs, tenant, keyOf, create, update);
    UpsertAllKeys(tb, rs, tenant, keyOf, create, update);
    UpsertAllOnPresentKeys(once, rs, tenant, keyOf, create, update);
    UpsertAllSettles(tb, rs, tenant, keyOf, create, update);
    var twice := UpsertAll(once, rs, tenant, keyOf, create, update);
    forall k | k in once.rows ensures twice.rows[k] == once.rows[k] {
      assert twice.rows[k] == UpdatedWith(once.rows[k], Latest(rs, k, tenant, keyOf), update);
    }
  }

  /** Every row sits under the key its own key columns spell (the composite unique key of the table). */
  ghost predicate KeyedBy<T>(rows: map<Key, T>, keyFn: T -> Key) {
    forall k :: k in rows ==> keyFn(rows[k]) == k
  }

  /** An upsert whose created row carries the record's key and whose update leaves key columns alone keeps the table keyed. */
  lemma StepKeyed<R, T>(tb: Table<T>, r: R, tenant: TenantId, keyOf: (R, TenantId) -> Key,
                        create: (R, TenantId, RowId) -> T, update: (T, R) -> T, keyFn: T -> Key)
    requires KeyedBy(tb.rows, keyFn)
    requires keyFn(create(r, tenant, tb.nextId)) == keyOf(r, tenant)
    requires keyOf(r, tenant) in tb.rows ==> keyFn(update(tb.rows[keyOf(r, tenant)], r)) == keyFn(tb.rows[keyOf(r, tenant)])
    ensures KeyedBy(Step(tb, r, tenant, keyOf, create, update).rows, keyFn)
  {
  }

  /** `create` writes the record's own key columns and `update` never changes them. */
  ghost predicate KeepsKeys<R(!new), T(!new)>(keyOf: (R, TenantId) -> Key, create: (R, TenantId, RowId) -> T,
                                             update: (T, R) -> T, keyFn: T -> Key) {
    && (forall r, tenant, id :: keyFn(create(r, tenant, id)) == keyOf(r, tenant))
    && (forall row, r :: keyFn(update(row, r)) == keyFn(row))
  }

  /** The upserts of a whole list keep a keyed table keyed: no row ends up under a key that is not its own. */
  lemma {:induction false} UpsertAllKeyed<R(!new), T(!new)>(tb: Table<T>, rs: seq<R>, tenant: TenantId, keyOf: (R, TenantId) -> Key,
                                                           create: (R, TenantId, RowId) -> T, update: (T, R) -> T, keyFn: T -> Key)
    requires KeyedBy(tb.rows, keyFn) && KeepsKeys(keyOf, create, update, keyFn)
    ensures KeyedBy(UpsertAll(tb, rs, tenant, keyOf, create, update).rows, keyFn)
    decreases |rs|
  {
    if rs != [] {
      var mid := UpsertAll(tb, rs[..|rs| - 1], tenant, keyOf, create, update);
      UpsertAllKeyed(tb, rs[..|rs| - 1], tenant, keyOf, create, update, keyFn);
      StepKeyed(mid, rs[|rs| - 1], tenant, keyOf, create, update, keyFn);
    }
  }
}
