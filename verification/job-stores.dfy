/** The two drivers of the job table, each refining the abstract one. */
module JobStores {
  import opened Jobs
  import opened OrderedMaps
  import opened Wrappers

  type Document = OrderedMap<JobId, Job>

  function Find(d: Document, id: JobId): Option<Job> { Get(d, id) }

  // [...rows.values()].filter(due).sort(by nextRunAt)[0]: sorting is stable, so it is the first of the
  // earliest due rows.
  predicate FirstDue(d: Document, now: int, k: nat) {
    && k < |d| && Due(d[k].1, now)
    && (forall i | 0 <= i < |d| && Due(d[i].1, now) :: d[k].1.nextRunAt <= d[i].1.nextRunAt)
    && (forall i | 0 <= i < k && Due(d[i].1, now) :: d[k].1.nextRunAt < d[i].1.nextRunAt)
  }

  lemma FirstDueIsAClaim(d: Document, now: int, k: nat)
    requires Distinct(d) && FirstDue(d, now, k)
    ensures ClaimOk(AsMap(d), now, Some(d[k].0)) && AsMap(d)[d[k].0] == d[k].1
  {
    EachGets(d, k);
    AsMapGets(d, d[k].0);
    forall id <- AsMap(d) | Due(AsMap(d)[id], now) ensures d[k].1.nextRunAt <= AsMap(d)[id].nextRunAt {
      AsMapGets(d, id);
      var i := GetsSome(d, id);
    }
  }

  lemma NoneDueIsAClaim(d: Document, now: int)
    requires forall i | 0 <= i < |d| :: !Due(d[i].1, now)
    ensures ClaimOk(AsMap(d), now, None)
  {
    forall id <- AsMap(d) ensures !Due(AsMap(d)[id], now) {
      AsMapGets(d, id);
      var i := GetsSome(d, id);
    }
  }

  /** The JSON driver: one write at a time copies the rows, changes the copy, persists it and swaps it in. */
  class JsonStore {
    var rows: Document

    ghost predicate Valid()
      reads this
    {
      Distinct(rows) && Keyed(AsMap(rows))
    }

    constructor ()
      ensures Valid() && rows == []
    {
      rows := [];
    }

    // `ok` is whether the changed document reached the disk; if not, the call throws and nothing changed.
    method Ensure(id: JobId, kind: string, nextRunAt: int, payload: Option<string>, ok: bool)
      requires Valid()
      modifies this
      ensures Valid()
      ensures AsMap(rows) ==
        if ok then Next(AsMap(old(rows)), Action.Ensure(id, kind, nextRunAt, payload)) else AsMap(old(rows))
    {
      var next := rows;
      AsMapGets(rows, id);
      if Find(next, id).None? {
        var job := Job(id, kind, payload, 0, nextRunAt, None, None, None);
        SetSets(next, id, job);
        SetKeepsDistinct(next, id, job);
        next := Set(next, id, job);
      }
      if ok { rows := next; }
    }

    method EarliestDue(now: int) returns (k: int)
      ensures k < 0 ==> forall i | 0 <= i < |rows| :: !Due(rows[i].1, now)
      ensures k >= 0 ==> FirstDue(rows, now, k)
    {
      k := -1;
      for i := 0 to |rows|
        invariant -1 <= k < i
        invariant k < 0 ==> forall j | 0 <= j < i :: !Due(rows[j].1, now)
        invariant k >= 0 ==> Due(rows[k].1, now)
        invariant k >= 0 ==> forall j | 0 <= j < i && Due(rows[j].1, now) :: rows[k].1.nextRunAt <= rows[j].1.nextRunAt
        invariant k >= 0 ==> forall j | 0 <= j < k && Due(rows[j].1, now) :: rows[k].1.nextRunAt < rows[j].1.nextRunAt
      {
        if Due(rows[i].1, now) && (k < 0 || rows[i].1.nextRunAt < rows[k].1.nextRunAt) { k := i; }
      }
    }

    method ClaimDue(now: int, leaseMs: nat, leaseId: string, ok: bool) returns (claimed: Option<Job>)
      requires Valid()
      modifies this
      ensures Valid() && (!ok ==> claimed == None && rows == old(rows))
      ensures ok ==>
        var choice := if claimed.Some? then Some(claimed.value.id) else None;
        && Allowed(AsMap(old(rows)), Claim(now, leaseMs, leaseId, choice))
        && AsMap(rows) == Next(AsMap(old(rows)), Claim(now, leaseMs, leaseId, choice))
        && (claimed.Some? ==> AsMap(rows)[claimed.value.id] == claimed.value)
      ensures ok && claimed.Some? ==> exists k | 0 <= k < |old(rows)| ::
        && old(rows)[k].0 == claimed.value.id
        && forall i | 0 <= i < k && Due(old(rows)[i].1, now) :: old(rows)[k].1.nextRunAt < old(rows)[i].1.nextRunAt
    {
      if !ok { return None; }
      var k := EarliestDue(now);
      if k < 0 {
        NoneDueIsAClaim(rows, now);
        return None;
      }
      FirstDueIsAClaim(rows, now, k);
      var id, job := rows[k].0, Leased(rows[k].1, now, leaseMs, leaseId);
      SetSets(rows, id, job);
      SetKeepsDistinct(rows, id, job);
      rows := Set(rows, id, job);
      claimed := Some(job);
    }

    method Reschedule(id: JobId, nextRunAt: int, attempts: nat, lastError: Option<string>, ok: bool)
      requires Valid()
      modifies this
      ensures Valid()
      ensures AsMap(rows) ==
        if ok then Next(AsMap(old(rows)), Action.Reschedule(id, nextRunAt, attempts, lastError)) else AsMap(old(rows))
    {
      AsMapGets(rows, id);
      var found := Find(rows, id);
      if ok && found.Some? {
        var job := found.value.(nextRunAt := nextRunAt, attempts := attempts, leaseUntil := None, leaseId := None,
          lastError := lastError);
        SetSets(rows, id, job);
        SetKeepsDistinct(rows, id, job);
        rows := Set(rows, id, job);
      }
    }

    method Remove(id: JobId, ok: bool)
      requires Valid()
      modifies this
      ensures Valid() && AsMap(rows) == if ok then Next(AsMap(old(rows)), Action.Remove(id)) else AsMap(old(rows))
    {
      if ok {
        DeleteKeepsDistinct(rows, id);
        DeleteDeletes(rows, id);
        rows := Delete(rows, id);
      }
    }
  }

  // ----- SQLite ------------------------------------------------------------------------------------------

  lemma {:induction false} SomeEarliest(t: Table, now: int, ids: set<JobId>)
    requires ids != {} && forall id <- ids :: id in t && Due(t[id], now)
    ensures exists id :: id in ids && forall k <- ids :: t[id].nextRunAt <= t[k].nextRunAt
    decreases ids
  {
    var k :| k in ids;
    var rest := ids - {k};
    assert forall x <- ids :: x == k || x in rest;
    if rest == {} {
      assert forall x <- ids :: t[k].nextRunAt <= t[x].nextRunAt;
    } else {
      SomeEarliest(t, now, rest);
      var e :| e in rest && forall x <- rest :: t[e].nextRunAt <= t[x].nextRunAt;
      var least := if t[k].nextRunAt < t[e].nextRunAt then k else e;
      assert forall x <- ids :: t[least].nextRunAt <= t[x].nextRunAt;
    }
  }

  /** The SQLite driver. */
  class SqliteStore {
    var table: Table

    constructor ()
      ensures table == map[]
    {
      table := map[];
    }

    method Ensure(id: JobId, kind: string, nextRunAt: int, payload: Option<string>)
      modifies this
      ensures table == Next(old(table), Action.Ensure(id, kind, nextRunAt, payload))
    {
      if id !in table {
        table := table[id := Job(id, kind, payload, 0, nextRunAt, None, None, None)];
      }
    }

    // SELECT ... WHERE next_run_at <= ? AND (lease_until IS NULL OR lease_until < ?) ORDER BY next_run_at
    // ASC LIMIT 1: any of the earliest due rows.
    method SelectDue(now: int) returns (row: Option<JobId>)
      ensures ClaimOk(table, now, row)
    {
      var due := DueIds(table, now);
      if due == {} {
        assert forall id <- table :: id !in due;
        return None;
      }
      SomeEarliest(table, now, due);
      var id :| id in due && forall k <- due :: table[id].nextRunAt <= table[k].nextRunAt;
      assert forall k <- table | Due(table[k], now) :: k in due;
      row := Some(id);
    }

    method ClaimDue(now: int, leaseMs: nat, leaseId: string) returns (claimed: Option<Job>)
      requires Keyed(table)
      modifies this
      ensures Keyed(table)
      ensures var choice := if claimed.Some? then Some(claimed.value.id) else None;
        && Allowed(old(table), Claim(now, leaseMs, leaseId, choice))
        && table == Next(old(table), Claim(now, leaseMs, leaseId, choice))
        && (claimed.Some? ==> table[claimed.value.id] == claimed.value)
    {
      var row := SelectDue(now);
      if row.None? { return None; }
      var job := table[row.value];
      table := table[row.value := job.(leaseUntil := Some(now + leaseMs), leaseId := Some(leaseId))];
      claimed := Some(job.(leaseUntil := Some(now + leaseMs), leaseId := Some(leaseId)));
    }

    method Reschedule(id: JobId, nextRunAt: int, attempts: nat, lastError: Option<string>)
      modifies this
      ensures table == Next(old(table), Action.Reschedule(id, nextRunAt, attempts, lastError))
    {
      if id in table {
        table := table[id := table[id].(nextRunAt := nextRunAt, attempts := attempts, leaseUntil := None,
          leaseId := None, lastError := lastError)];
      }
    }

    method Remove(id: JobId)
      modifies this
      ensures table == Next(old(table), Action.Remove(id))
    {
      table := table - {id};
    }
  }
}
