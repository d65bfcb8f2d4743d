/** The two drivers of the idempotency store, each refining the abstract put and lookup. */
module IdempotencyStores {
  import opened Idempotency
  import opened OrderedMaps
  import opened Sets
  import opened Wrappers

  // ----- the JSON document: rows in the order their keys were first set -----------------------------------

  type Document = OrderedMap<Id, Row>

  function Find(d: Document, id: Id): Option<Row> { Get(d, id) }

  // The rows that are not expired, in order.
  function Live(d: Document, now: int): Document {
    if d == [] then [] else if Expired(d[0].1, now) then Live(d[1..], now) else [d[0]] + Live(d[1..], now)
  }

  lemma {:induction false} LiveFinds(d: Document, now: int, id: Id)
    requires Distinct(d)
    ensures Find(Live(d, now), id) == var row := Find(d, id); if row.Some?
      && !Expired(row.value, now) then row else None
  {
    if d != [] { LiveFinds(d[1..], now, id); }
  }

  lemma {:induction false} LiveIsDistinct(d: Document, now: int)
    requires Distinct(d)
    ensures Distinct(Live(d, now)) && |Live(d, now)| <= |d|
  {
    if d != [] {
      LiveIsDistinct(d[1..], now);
      LiveFinds(d[1..], now, d[0].0);
    }
  }

  lemma LiveIsPruned(d: Document, now: int)
    requires Distinct(d)
    ensures AsMap(Live(d, now)) == Pruned(AsMap(d), now)
  {
    forall k: Id ensures k in AsMap(Live(d, now)) <==> k in Pruned(AsMap(d), now)
      ensures k in AsMap(Live(d, now)) ==> AsMap(Live(d, now))[k] == AsMap(d)[k]
    {
      LiveFinds(d, now, k);
      AsMapGets(d, k);
      AsMapGets(Live(d, now), k);
    }
  }

  lemma FirstOut(d: Document)
    requires d != [] && Distinct(d)
    ensures d[0].0 in AsMap(d) && AsMap(d[1..]) == AsMap(d) - {d[0].0}
  {
    AsMapGets(d[1..], d[0].0);
  }

  /** The JSON driver. Its queue runs one write at a time, and a write that fails changes nothing. */
  class JsonStore {
    var rows: Document

    ghost predicate Valid()
      reads this
    {
      Distinct(rows) && |rows| <= MAX_ENTRIES
    }

    constructor ()
      ensures Valid() && rows == []
    {
      rows := [];
    }

    method Get(id: Id, now: int) returns (entry: Option<Response>)
      requires Valid()
      modifies this
      ensures Valid() && entry == Lookup(AsMap(old(rows)), id, now)
      ensures AsMap(rows) == if id in AsMap(old(rows)) && entry.None? then AsMap(old(rows)) - {id} else AsMap(old(rows))
    {
      AsMapGets(rows, id);
      var row := Find(rows, id);
      if row.None? { return None; }
      if now - row.value.at > TTL_MS {
        DeleteKeepsDistinct(rows, id);
        DeleteDeletes(rows, id);
        rows := Delete(rows, id);
        return None;
      }
      entry := Some(row.value.entry);
    }

    method Prune(now: int) returns (next: Document)
      ensures next == Live(rows, now)
    {
      next := [];
      for i := 0 to |rows|
        invariant next + Live(rows[i..], now) == Live(rows, now)
      {
        assert rows[i..][1..] == rows[i + 1..];
        if !(now - rows[i].1.at > TTL_MS) { next := next + [rows[i]]; }
      }
      assert rows[|rows|..] == [];
    }

    // `ok` is whether the new document reached the disk.
    method Put(id: Id, entry: Response, now: int, ok: bool) returns (ghost victim: Option<Id>)
      requires Valid()
      modifies this
      ensures Valid() && (!ok ==> rows == old(rows))
      ensures ok ==> VictimOk(Pruned(AsMap(old(rows)), now), id, victim)
      ensures ok ==> AsMap(rows) == Idempotency.Put(AsMap(old(rows)), id, entry, now, victim)
      // The key set first among those left makes room.
      ensures ok && victim.Some? ==> Live(old(rows), now) != [] && victim.value == Live(old(rows), now)[0].0
    {
      var next := Prune(now);
      LiveIsPruned(rows, now);
      LiveIsDistinct(rows, now);
      AsMapSize(next);
      AsMapGets(next, id);
      victim := None;
      if |next| >= MAX_ENTRIES && Find(next, id).None? {
        victim := Some(next[0].0);
        FirstOut(next);
        next := next[1..];
      }
      SetSets(next, id, Row(now, entry));
      SetKeepsDistinct(next, id, Row(now, entry));
      next := Set(next, id, Row(now, entry));
      if ok { rows := next; }
    }
  }

  // ----- the SQLite table ----------------------------------------------------------------------------------

  predicate Oldest(rows: Rows, id: Id) { id in rows && forall k <- rows :: rows[id].at <= rows[k].at }

  lemma {:induction false} SomeOldest(rows: Rows)
    requires rows != map[]
    ensures exists id :: Oldest(rows, id)
    decreases |rows|
  {
    var k :| k in rows;
    var rest := rows - {k};
    assert forall x <- rows :: x == k || (x in rest && rest[x] == rows[x]);
    if rest == map[] {
      assert forall x <- rows :: x !in rest;
      assert Oldest(rows, k);
    } else {
      assert rest.Keys == rows.Keys - {k};
      SomeOldest(rest);
      var o :| Oldest(rest, o);
      assert Oldest(rows, if rows[k].at < rows[o].at then k else o);
    }
  }

  /** The SQLite driver: each statement takes effect at once. */
  class SqliteStore {
    var table: Rows

    constructor ()
      ensures table == map[]
    {
      table := map[];
    }

    method Get(id: Id, now: int) returns (entry: Option<Response>)
      modifies this
      ensures entry == Lookup(old(table), id, now)
      ensures table == if id in old(table) && entry.None? then old(table) - {id} else old(table)
    {
      if id !in table { return None; }
      var row := table[id];
      if now - row.at > TTL_MS {
        table := table - {id};
        return None;
      }
      entry := Some(row.entry);
    }

    // SELECT id FROM idempotency ORDER BY at ASC LIMIT 1: any of the oldest rows.
    method SelectOldest() returns (id: Id)
      requires table != map[]
      ensures Oldest(table, id)
    {
      SomeOldest(table);
      id :| id in table && forall k <- table :: table[id].at <= table[k].at;
    }

    method Put(id: Id, entry: Response, now: int) returns (ghost victim: Option<Id>)
      requires |table| <= MAX_ENTRIES
      modifies this
      ensures |table| <= MAX_ENTRIES && VictimOk(Pruned(old(table), now), id, victim)
      ensures table == Idempotency.Put(old(table), id, entry, now, victim)
      // An oldest row makes room.
      ensures victim.Some? ==> Oldest(Pruned(old(table), now), victim.value)
    {
      table := map k | k in table && !(table[k].at < now - TTL_MS) :: table[k];
      assert table == Pruned(old(table), now);
      assert table.Keys <= old(table).Keys;
      SubsetSize(table.Keys, old(table).Keys);
      victim := None;
      if |table| >= MAX_ENTRIES {
        var oldest := SelectOldest();
        if oldest != id {
          victim := Some(oldest);
          table := table - {oldest};
        } else {
          assert id in table;
        }
      }
      PutIsBounded(old(table), id, entry, now, victim);
      table := table[id := Row(now, entry)];
    }
  }
}
