/**
 The `keys` table, the `active_keys` view, and the three statements that touch them. The view's
 CURRENT_TIMESTAMP is the start of the transaction that runs the query, passed as `txStart`.
 */
module KeyTable {
  import opened Wrappers
  import opened Time
  import opened Config

  /** A UUID, as a number. */
  type KeyId = nat

  datatype Row = Row(
    id: KeyId, priv: string, pub: Option<string>, usage: Usage,
    created: Time, expires: Time, deleted: Option<Time>, comment: Option<string>)

  type Rows = map<KeyId, Row>

  const KEYS_MAX_BATCH_SIZE: nat := 100

  /** The predicate of the `active_keys` view. */
  predicate ActiveAt(row: Row, t: Time) {
    row.expires > t && (row.deleted.None? || row.deleted.value > t)
  }

  /** Not (yet) withdrawn by a revocation; expiry plays no part. */
  predicate Standing(row: Row, t: Time) {
    row.deleted.None? || row.deleted.value > t
  }

  /** The two versions of a row differ at most by a revocation. */
  predicate SameKey(a: Row, b: Row) {
    a == b.(deleted := a.deleted, comment := a.comment)
  }

  predicate Keyed(rows: Rows) {
    forall id :: id in rows ==> rows[id].id == id
  }

  predicate Matches(rows: Rows, usage: Usage, t: Time, id: KeyId) {
    id in rows && rows[id].usage == usage && ActiveAt(rows[id], t)
  }

  /**
   What the search statement may return: active rows of the usage, newest first, at most `limit`
   of them, and no row left out that is newer than one returned. Rows with equal creation times
   come in any order.
   */
  ghost predicate IsSearch(rows: Rows, usage: Usage, t: Time, limit: nat, keys: seq<Row>) {
    && |keys| <= limit
    && (forall i :: 0 <= i < |keys| ==> Matches(rows, usage, t, keys[i].id) && rows[keys[i].id] == keys[i])
    && (forall i, j :: 0 <= i < j < |keys| ==> keys[i].id != keys[j].id && keys[i].created >= keys[j].created)
    && (forall id :: Matches(rows, usage, t, id) ==>
                       Listed(keys, id) || (|keys| == limit && NoneOlder(keys, rows[id].created)))
  }

  predicate Listed(keys: seq<Row>, id: KeyId) {
    exists i :: 0 <= i < |keys| && keys[i].id == id
  }

  predicate NoneOlder(keys: seq<Row>, created: Time) {
    forall i :: 0 <= i < |keys| ==> created <= keys[i].created
  }

  /** The row an insert stores: times are rounded by the column type. */
  function StoredRow(id: KeyId, priv: string, pub: Option<string>, usage: Usage, now: Time, expiration: Time): Row {
    Row(id, priv, pub, usage, RoundToSecond(now), RoundToSecond(expiration), None, None)
  }

  predicate Revocable(rows: Rows, id: KeyId, txStart: Time) {
    id in rows && rows[id].deleted.None? && rows[id].expires > txStart
  }

  function Revoked(row: Row, now: Time, comment: string): Row {
    row.(deleted := Some(RoundToSecond(now)), comment := Some(comment))
  }

  /** Every active key is listed with, or is no newer than, the head. */
  lemma HeadIsNewest(rows: Rows, usage: Usage, t: Time, limit: nat, keys: seq<Row>, id: KeyId)
    requires 0 < limit && IsSearch(rows, usage, t, limit, keys) && Matches(rows, usage, t, id) && rows[id].id == id
    ensures |keys| > 0 && rows[id].created <= keys[0].created
  {
    if Listed(keys, id) {
      var i :| 0 <= i < |keys| && keys[i].id == id;
      assert rows[keys[i].id] == keys[i];
    }
  }

  lemma SomeNewest(rows: Rows, pool: set<KeyId>) returns (top: KeyId)
    requires pool != {} && pool <= rows.Keys
    ensures top in pool && forall id :: id in pool ==> rows[id].created <= rows[top].created
  {
    top :| top in pool;
    if pool != {top} {
      var rest := SomeNewest(rows, pool - {top});
      if rows[top].created < rows[rest].created {
        top := rest;
      }
    }
  }

  class Table {
    var rows: Rows

    constructor ()
      ensures rows == map[]
    {
      rows := map[];
    }

    /** The search statement and its limit. The statement is declarative; this body is one way to evaluate it. */
    method Search(usage: Usage, txStart: Time) returns (keys: seq<Row>)
      requires Keyed(rows)
      ensures IsSearch(rows, usage, txStart, KEYS_MAX_BATCH_SIZE, keys)
      ensures |keys| <= 100
      ensures forall key :: key in keys ==>
                              && key.id in rows && rows[key.id] == key && key.usage == usage && key.expires > txStart
                              && (key.deleted.None? || key.deleted.value > txStart)
      ensures forall i, j :: 0 <= i < j < |keys| ==> keys[i].created >= keys[j].created
      ensures forall id :: && id in rows && rows[id].usage == usage && rows[id].expires > txStart
                           && (rows[id].deleted.None? || rows[id].deleted.value > txStart) ==>
                             || rows[id] in keys
                             || (|keys| == 100 && forall key :: key in keys ==> rows[id].created <= key.created)
    {
      keys := [];
      var pool := set id | id in rows && Matches(rows, usage, txStart, id);
      while pool != {} && |keys| < KEYS_MAX_BATCH_SIZE
        invariant |keys| <= KEYS_MAX_BATCH_SIZE
        invariant forall id :: id in pool ==> Matches(rows, usage, txStart, id) && NoneOlder(keys, rows[id].created)
        invariant forall i :: 0 <= i < |keys| ==>
                                && Matches(rows, usage, txStart, keys[i].id)
                                && rows[keys[i].id] == keys[i] && keys[i].id !in pool
        invariant forall i, j :: 0 <= i < j < |keys| ==> keys[i].id != keys[j].id && keys[i].created >= keys[j].created
        invariant forall id :: Matches(rows, usage, txStart, id) ==> id in pool || Listed(keys, id)
        decreases pool
      {
        ghost var newest := SomeNewest(rows, pool);
        assert newest in pool && forall o :: o in pool ==> rows[o].created <= rows[newest].created;
        var top :| top in pool && forall o :: o in pool ==> rows[o].created <= rows[top].created;
        ghost var before := keys;
        keys := keys + [rows[top]];
        pool := pool - {top};
        assert Listed(keys, top) by { assert keys[|before|].id == top; }
        forall id | Listed(before, id) ensures Listed(keys, id) {
          var i :| 0 <= i < |before| && before[i].id == id;
          assert keys[i].id == id;
        }
      }
    }

    /** The insert statement: refused for a taken id or an empty private key, otherwise one new row. */
    method Insert(id: KeyId, priv: string, pub: Option<string>, usage: Usage, now: Time, expiration: Time)
      returns (r: Result<Row, Error>)
      modifies this
      ensures r.Ok? <==> old(id !in rows) && priv != ""
      ensures r.Ok? ==> r.value == StoredRow(id, priv, pub, usage, now, expiration) && rows == old(rows)[id := r.value]
      ensures r.Ok? ==> && r.value.id == id && r.value.priv == priv && r.value.pub == pub && r.value.usage == usage
                        && r.value.created == RoundToSecond(now) && r.value.expires == RoundToSecond(expiration)
                        && r.value.deleted.None? && r.value.comment.None?
      ensures r.Err? ==> r.error == InsertFailed && rows == old(rows)
    {
      if id in rows || priv == "" {
        return Err(InsertFailed);
      }
      var row := StoredRow(id, priv, pub, usage, now, expiration);
      rows := rows[id := row];
      return Ok(row);
    }

    /** The delete statement: revokes an unrevoked, unexpired key once; anything else is reported as missing. */
    method Delete(id: KeyId, now: Time, comment: string, txStart: Time) returns (r: Result<Row, Error>)
      modifies this
      ensures r.Ok? <==> old(Revocable(rows, id, txStart))
      ensures r.Ok? ==> r.value == Revoked(old(rows)[id], now, comment) && rows == old(rows)[id := r.value]
      ensures r.Ok? ==> !Revocable(rows, id, txStart)
      ensures id !in old(rows) ==> r == Err(NotFound)
      ensures id in old(rows) && old(rows)[id].expires <= txStart ==> r == Err(NotFound)
      ensures id in old(rows) && old(rows)[id].deleted.Some? ==> r == Err(NotFound)
      ensures id in old(rows) && old(rows)[id].expires > txStart && old(rows)[id].deleted.None? ==> r.Ok?
      ensures r.Ok? ==> && r.value.deleted == Some(RoundToSecond(now)) && r.value.comment == Some(comment)
                        && r.value == old(rows)[id].(deleted := r.value.deleted, comment := r.value.comment)
      ensures r.Err? ==> r.error == NotFound && rows == old(rows)
    {
      if id !in rows || rows[id].deleted.Some? || rows[id].expires <= txStart {
        return Err(NotFound);
      }
      rows := rows[id := Revoked(rows[id], now, comment)];
      return Ok(rows[id]);
    }
  }
}
